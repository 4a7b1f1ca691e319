/**
 * `HTMLCache`: scraped pages stored under `{cache_dir}/{league}/{filename}`. The file system
 * is a map from paths to contents; `urlparse` and the MD5 hex digest are parameters.
 */
module PageCache {
  import opened Wrappers
  import opened Text

  /** The parts of `urlparse(url)` the cache looks at. */
  datatype UrlParts = UrlParts(path: string, query: string)

  /** `cache_dir / league_code / filename`. */
  datatype CachePath = CachePath(dir: string, league: string, filename: string)

  /** The last segment of the URL path, slashes at either end ignored. */
  function LastPathSegment(path: string): (last: string)
    ensures '/' !in last
  {
    var segments := Split(StripChar(path, '/'), '/');
    segments[|segments| - 1]
  }

  /** `s + ".html"` ends with ".html". */
  lemma HtmlSuffix(s: string)
    ensures EndsWith(s + ".html", ".html")
  {
    assert (s + ".html")[|s|..] == ".html";
  }

  /**
   * The file name of a URL: a boxscore page keeps its own ".html" name, a boxscore query becomes
   * "scoreboard_" and the query with "&" turned into "_" and "=" dropped, anything else is
   * named after the first 12 hex digits of the URL's MD5. Every name ends in ".html".
   */
  function CacheFileName(parts: UrlParts, md5Hex: string): (filename: string)
    ensures EndsWith(filename, ".html")
  {
    var last := LastPathSegment(parts.path);
    if Contains(parts.path, "boxscores") && EndsWith(last, ".html") then last
    else if Contains(parts.path, "boxscores") && parts.query != "" then
      var name := "scoreboard_" + Replace(Replace(parts.query, "&", "_"), "=", "");
      HtmlSuffix(name);
      name + ".html"
    else
      var name := "page_" + PyPrefix(md5Hex, 12);
      HtmlSuffix(name);
      name + ".html"
  }

  /** Two boxscore pages with the same last segment share one file, whatever precedes it. */
  lemma BoxscorePagesShareFile(a: UrlParts, b: UrlParts, hashA: string, hashB: string)
    requires Contains(a.path, "boxscores") && Contains(b.path, "boxscores")
    requires LastPathSegment(a.path) == LastPathSegment(b.path) && EndsWith(LastPathSegment(a.path), ".html")
    ensures CacheFileName(a, hashA) == CacheFileName(b, hashB) == LastPathSegment(a.path)
  {
  }

  /** A scoreboard name built from a query without "&" or "=" has neither. */
  lemma ScoreboardNameClean(cleaned: string)
    requires '&' !in cleaned && '=' !in cleaned
    ensures StartsWith("scoreboard_" + cleaned + ".html", "scoreboard_")
    ensures '&' !in "scoreboard_" + cleaned + ".html" && '=' !in "scoreboard_" + cleaned + ".html"
  {
    var name := "scoreboard_" + cleaned + ".html";
    assert name[..|"scoreboard_"|] == "scoreboard_";
  }

  /** A scoreboard query names its file "scoreboard_..." with no "&" or "=" left in it. */
  lemma ScoreboardFileName(parts: UrlParts, md5Hex: string)
    requires Contains(parts.path, "boxscores") && !EndsWith(LastPathSegment(parts.path), ".html") && parts.query != ""
    ensures StartsWith(CacheFileName(parts, md5Hex), "scoreboard_")
    ensures '&' !in CacheFileName(parts, md5Hex) && '=' !in CacheFileName(parts, md5Hex)
  {
    var once := Replace(parts.query, "&", "_");
    var cleaned := Replace(once, "=", "");
    assert CacheFileName(parts, md5Hex) == "scoreboard_" + cleaned + ".html";
    ReplaceRemovesChar(parts.query, '&', "_");
    ReplaceKeepsAbsent(once, "=", "", '&');
    ReplaceRemovesChar(once, '=', "");
    ScoreboardNameClean(cleaned);
  }

  /** `get`'s answer from the files on disk: nothing on a miss, and nothing on any forced refresh. */
  function CachedPage(files: map<CachePath, string>, forceRefresh: bool, path: CachePath): (html: Option<string>)
    ensures forceRefresh ==> html.None?
    ensures path !in files ==> html.None?
    ensures html.Some? ==> path in files && html.value == files[path]
    ensures !forceRefresh && path in files ==> html.Some?
  {
    if path in files then (if forceRefresh then None else Some(files[path])) else None
  }

  /** A page put at a path is what a later unforced get of that path returns; other paths keep theirs. */
  lemma {:induction false} PutThenGet(files: map<CachePath, string>, p: CachePath, q: CachePath, html: string)
    ensures CachedPage(files[p := html], false, q) == if q == p then Some(html) else CachedPage(files, false, q)
  {
    if q != p {
      assert (q in files[p := html]) == (q in files);
    }
  }

  class HTMLCache {
    const cacheDir: string
    const leagueCode: string
    const forceRefresh: bool
    const urlparse: string -> UrlParts
    const md5Hex: string -> string

    /** The files under the cache directory. */
    var files: map<CachePath, string>

    constructor (cacheDir: string, leagueCode: string, forceRefresh: bool,
                 urlparse: string -> UrlParts, md5Hex: string -> string, onDisk: map<CachePath, string>)
      ensures this.cacheDir == cacheDir && this.leagueCode == leagueCode && this.forceRefresh == forceRefresh
      ensures this.urlparse == urlparse && this.md5Hex == md5Hex && files == onDisk
    {
      this.cacheDir := cacheDir;
      this.leagueCode := leagueCode;
      this.forceRefresh := forceRefresh;
      this.urlparse := urlparse;
      this.md5Hex := md5Hex;
      files := onDisk;
    }

    /** `_get_cache_path`: the game date plays no part. */
    function PathFor(url: string, gameDate: Option<int>): (p: CachePath)
      ensures p.dir == cacheDir && p.league == leagueCode
      ensures EndsWith(p.filename, ".html")
    {
      CachePath(cacheDir, leagueCode, CacheFileName(urlparse(url), md5Hex(url)))
    }

    /** `get`. */
    method Get(url: string, gameDate: Option<int>) returns (html: Option<string>)
      ensures html == CachedPage(files, forceRefresh, PathFor(url, gameDate))
    {
      var path := PathFor(url, gameDate);
      if path in files {
        if forceRefresh {
          return None;
        }
        return Some(files[path]);
      }
      return None;
    }

    /** `put`: writes the page at the URL's path and returns the path. */
    method Put(url: string, html: string, gameDate: Option<int>) returns (path: CachePath)
      modifies this
      ensures path == PathFor(url, gameDate)
      ensures files == old(files)[path := html]
    {
      path := PathFor(url, gameDate);
      files := files[path := html];
    }
  }
}
