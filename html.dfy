/**
 * The parts of a parsed HTML document the scrapers look at. BeautifulSoup's tree is reduced to
 * tables (with their `id` and `tfoot` cells) and table cells (tag, `data-stat`, text).
 */
module Html {
  import opened Wrappers

  datatype CellKind = Td | Th

  /** A table cell: its tag, its `data-stat` attribute and its text (`cell.text`). */
  datatype Cell = Cell(kind: CellKind, dataStat: Option<string>, text: string)

  /** A table: its `id` attribute and, when it has a `tfoot`, the cells inside it in order. */
  datatype Table = Table(id: Option<string>, tfoot: Option<seq<Cell>>)

  /** A document's tables in document order. */
  datatype Page = Page(tables: seq<Table>)

  /** A `td` cell whose `data-stat` is present and non-empty (`if stat:`). */
  predicate IsStatCell(c: Cell) {
    c.kind == Td && c.dataStat.Some? && c.dataStat.value != ""
  }
}
