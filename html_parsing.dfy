/** Table lookup and team-total extraction over a parsed page. */
module HtmlParsing {
  import opened Wrappers
  import opened Html
  import opened Parsing
  import opened Text

  /** `soup.find("table", id=tableId)`: the first table, in document order, with that id. */
  function TableWithId(page: Page, tableId: string): (r: Option<Table>)
    ensures r.Some? ==> r.value in page.tables && r.value.id == Some(tableId)
    ensures r.None? <==> forall i :: 0 <= i < |page.tables| ==> page.tables[i].id != Some(tableId)
    ensures r.Some? ==>
      exists i :: 0 <= i < |page.tables| && page.tables[i] == r.value
        && forall j :: 0 <= j < i ==> page.tables[j].id != Some(tableId)
    decreases |page.tables|
  {
    if page.tables == [] then None
    else if page.tables[0].id == Some(tableId) then Some(page.tables[0])
    else
      var rest := TableWithId(Page(page.tables[1..]), tableId);
      if rest.Some? then
        var i :| 0 <= i < |page.tables| - 1 && page.tables[1..][i] == rest.value
          && forall j :: 0 <= j < i ==> page.tables[1..][j].id != Some(tableId);
        assert page.tables[i + 1] == rest.value;
        assert forall j :: 0 <= j < i + 1 ==> page.tables[j].id != Some(tableId) by {
          forall j | 0 <= j < i + 1 ensures page.tables[j].id != Some(tableId) {
            if j > 0 { assert page.tables[j] == page.tables[1..][j - 1]; }
          }
        }
        rest
      else rest
  }

  /**
   * `find_table_by_id`: the primary id first, then each alternate id in order; the first id
   * with a table decides. `None` for the alternates and an empty list behave alike.
   */
  method FindTableById(page: Page, tableId: string, alternateIds: seq<string>) returns (r: Option<Table>)
    ensures TableWithId(page, tableId).Some? ==> r == TableWithId(page, tableId)
    ensures r.None? <==> TableWithId(page, tableId).None? && forall k :: 0 <= k < |alternateIds| ==> TableWithId(page, alternateIds[k]).None?
    ensures TableWithId(page, tableId).None? && r.Some? ==>
      exists k :: 0 <= k < |alternateIds| && r == TableWithId(page, alternateIds[k])
        && forall j :: 0 <= j < k ==> TableWithId(page, alternateIds[j]).None?
  {
    r := TableWithId(page, tableId);
    if r.Some? {
      return;
    }
    var k := 0;
    while k < |alternateIds|
      invariant 0 <= k <= |alternateIds|
      invariant forall j :: 0 <= j < k ==> TableWithId(page, alternateIds[j]).None?
    {
      r := TableWithId(page, alternateIds[k]);
      if r.Some? {
        return;
      }
      k := k + 1;
    }
    r := None;
  }

  /** `find_player_table`: the same lookup. */
  method FindPlayerTable(page: Page, tableId: string, alternateIds: seq<string>) returns (r: Option<Table>)
    ensures TableWithId(page, tableId).Some? ==> r == TableWithId(page, tableId)
    ensures r.None? <==> TableWithId(page, tableId).None? && forall k :: 0 <= k < |alternateIds| ==> TableWithId(page, alternateIds[k]).None?
    ensures TableWithId(page, tableId).None? && r.Some? ==>
      exists k :: 0 <= k < |alternateIds| && r == TableWithId(page, alternateIds[k])
        && forall j :: 0 <= j < k ==> TableWithId(page, alternateIds[j]).None?
  {
    r := FindTableById(page, tableId, alternateIds);
  }

  /** The team totals of a table: the stats of its `tfoot` cells, none without a `tfoot`. */
  function TeamStatsOf(table: Table): map<string, string> {
    if table.tfoot.None? then map[] else StatsOf(table.tfoot.value)
  }

  /** `extract_team_stats_from_table`. */
  method ExtractTeamStatsFromTable(table: Table) returns (totals: map<string, string>)
    ensures table.tfoot.None? ==> totals == map[]
    ensures table.tfoot.Some? ==> totals == StatsOf(table.tfoot.value)
    ensures forall k :: k in totals ==> k != ""
  {
    if table.tfoot.None? {
      return map[];
    }
    totals := ExtractAllStatsFromRow(table.tfoot.value);
  }

  /** `t.get("id", "no-id")`. */
  function IdOrDefault(t: Table): string {
    if t.id.Some? then t.id.value else "no-id"
  }

  /** `get_table_ids_on_page`: the ids of the first `limit` tables, "no-id" for a table without one. */
  function GetTableIdsOnPage(page: Page, limit: int): (ids: seq<string>)
    ensures |ids| == |PyPrefix(page.tables, limit)| && |ids| <= |page.tables|
    ensures 0 <= limit ==> |ids| <= limit
    ensures forall i :: 0 <= i < |ids| ==> ids[i] == IdOrDefault(page.tables[i])
  {
    var shown := PyPrefix(page.tables, limit);
    seq(|shown|, i requires 0 <= i < |shown| => IdOrDefault(shown[i]))
  }
}
