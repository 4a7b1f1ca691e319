/**
 * The post collector: strategies that fetch posts from a team's X account, and the job that
 * filters spoilers and upserts the posts by their URL.
 *
 * The database session is the class `SocialDb`: its teams, games, the social posts keyed by
 * `post_url` (the session's view, autoflush included, so a URL repeated within one batch is
 * an update the second time) and a count of commits. What a strategy fetches from the network
 * and the clock are parameters.
 */
module PostCollector {
  import opened Wrappers
  import opened Text
  import RevealPolicy
  import SpoilerFilter

  datatype CollectedPost = CollectedPost(
    postUrl: string, postedAt: int, hasVideo: bool, text: Option<string>, authorHandle: string,
    videoUrl: Option<string>, imageUrl: Option<string>, mediaType: Option<string>)

  datatype Job = Job(gameId: int, teamAbbreviation: string, xHandle: string, windowStart: int, windowEnd: int)

  /** `PostCollectionResult`; `completed` says whether `completed_at` was set. */
  datatype JobResult = JobResult(
    job: Job, postsFound: nat, postsSaved: nat, postsFiltered: nat, errors: seq<string>, completed: bool)

  datatype Team = Team(id: int, abbreviation: string, xHandle: Option<string>)

  datatype Game = Game(id: int, homeTeamId: int, awayTeamId: int, gameDate: int)

  /** A `game_social_posts` row. */
  datatype SocialPost = SocialPost(
    gameId: int, teamId: int, postUrl: string, postedAt: int, hasVideo: bool, tweetText: Option<string>,
    sourceHandle: string, videoUrl: Option<string>, imageUrl: Option<string>, mediaType: string, updatedAt: int)

  // ---------------------------------------------------------------------------------------
  // Strategies

  datatype Strategy = Mock | XApi(bearerToken: Option<string>) | Playwright

  /** `bearer_token or os.environ.get("X_BEARER_TOKEN")`: an empty token counts as none. */
  function ResolveToken(given: Option<string>, env: Option<string>): (r: Option<string>)
    ensures given.Some? && given.value != "" ==> r == given
    ensures (given.None? || given == Some("")) ==> r == env
  {
    if given.Some? && given.value != "" then given else env
  }

  /** The strategy chosen when none is given. */
  function DefaultStrategy(playwrightAvailable: bool): (s: Strategy)
    ensures s.Playwright? <==> playwrightAvailable
    ensures !playwrightAvailable ==> s == Mock
  {
    if playwrightAvailable then Playwright else Mock
  }

  /**
   * `collect_posts`: the mock returns nothing, and so does the X API strategy, with or without
   * a token (without one it skips, with one the integration is not implemented). Only the
   * browser strategy fetches, and its outcome, posts or the exception's message, is given.
   */
  function CollectPosts(strategy: Strategy, fetched: Result<seq<CollectedPost>, string>): (r: Result<seq<CollectedPost>, string>)
    ensures !strategy.Playwright? ==> r == Success([])
    ensures strategy.Playwright? ==> r == fetched
  {
    match strategy
    case Mock => Success([])
    case XApi(_) => Success([])
    case Playwright => fetched
  }

  // ---------------------------------------------------------------------------------------
  // The job, as a specification

  /** `abbreviation.ilike(abbr)`, without wildcards, and `.first()`. */
  function TeamByAbbreviation(teams: seq<Team>, abbr: string): (r: Option<Team>)
    ensures r.Some? ==> r.value in teams && Lower(r.value.abbreviation) == Lower(abbr)
    ensures r.None? <==> forall i :: 0 <= i < |teams| ==> Lower(teams[i].abbreviation) != Lower(abbr)
  {
    if teams == [] then None
    else if Lower(teams[0].abbreviation) == Lower(abbr) then Some(teams[0])
    else TeamByAbbreviation(teams[1..], abbr)
  }

  /**
   * A lookup by primary key: `session.query(...).get(id)` for a team, `.filter(id == ...).first()`
   * for a game. `idOf` reads a row's key.
   */
  function ById<T>(rows: seq<T>, idOf: T -> int, id: int): (r: Option<T>)
    ensures r.Some? ==> r.value in rows && idOf(r.value) == id
    ensures r.None? <==> forall i :: 0 <= i < |rows| ==> idOf(rows[i]) != id
  {
    if rows == [] then None
    else if idOf(rows[0]) == id then Some(rows[0])
    else ById(rows[1..], idOf, id)
  }

  function TeamId(team: Team): int { team.id }

  function GameId(game: Game): int { game.id }

  /** `post.media_type or "none"`. */
  function MediaTypeOf(post: CollectedPost): (m: string)
    ensures m != ""
    ensures post.mediaType.Some? && post.mediaType.value != "" ==> m == post.mediaType.value
  {
    if post.mediaType.Some? && post.mediaType.value != "" then post.mediaType.value else "none"
  }

  /** A post is dropped only with filtering on, a non-empty text, and a spoiler in it. */
  predicate IsFiltered(filterSpoilers: bool, search: RevealPolicy.Search, post: CollectedPost) {
    filterSpoilers && post.text.Some? && post.text.value != "" && SpoilerFilter.ContainsSpoiler(search, post.text.value)
  }

  /** The existing row brought up to date; its game and team stay as they were. */
  function Refreshed(existing: SocialPost, post: CollectedPost, now: int): (p: SocialPost)
    ensures p.gameId == existing.gameId && p.teamId == existing.teamId && p.postUrl == existing.postUrl
    ensures p.tweetText == post.text && p.mediaType == MediaTypeOf(post) && p.updatedAt == now
  {
    existing.(postedAt := post.postedAt, hasVideo := post.hasVideo, tweetText := post.text,
              sourceHandle := post.authorHandle, videoUrl := post.videoUrl, imageUrl := post.imageUrl,
              mediaType := MediaTypeOf(post), updatedAt := now)
  }

  /** The new row for a post seen for the first time. */
  function Created(gameId: int, teamId: int, post: CollectedPost, now: int): (p: SocialPost)
    ensures p.gameId == gameId && p.teamId == teamId && p.postUrl == post.postUrl
    ensures p.tweetText == post.text && p.mediaType == MediaTypeOf(post) && p.updatedAt == now
  {
    SocialPost(gameId, teamId, post.postUrl, post.postedAt, post.hasVideo, post.text, post.authorHandle,
               post.videoUrl, post.imageUrl, MediaTypeOf(post), now)
  }

  /** The store and the three counters after some of the posts. */
  datatype Tally = Tally(store: map<string, SocialPost>, filtered: nat, updated: nat, saved: nat)

  function Step(filterSpoilers: bool, search: RevealPolicy.Search, gameId: int, teamId: int, now: int,
                t: Tally, post: CollectedPost): Tally
  {
    if IsFiltered(filterSpoilers, search, post) then t.(filtered := t.filtered + 1)
    else if post.postUrl in t.store then
      t.(store := t.store[post.postUrl := Refreshed(t.store[post.postUrl], post, now)], updated := t.updated + 1)
    else
      t.(store := t.store[post.postUrl := Created(gameId, teamId, post, now)], saved := t.saved + 1)
  }

  /** The loop of `run_job` over a batch: every post is filtered, updated or saved, and each saved post adds one row. */
  function ApplyPosts(filterSpoilers: bool, search: RevealPolicy.Search, gameId: int, teamId: int, now: int,
                      store: map<string, SocialPost>, posts: seq<CollectedPost>): (t: Tally)
    ensures t.filtered + t.updated + t.saved == |posts|
    ensures |t.store| == |store| + t.saved
    decreases |posts|
  {
    if posts == [] then Tally(store, 0, 0, 0)
    else
      Step(filterSpoilers, search, gameId, teamId, now,
           ApplyPosts(filterSpoilers, search, gameId, teamId, now, store, posts[..|posts| - 1]), posts[|posts| - 1])
  }

  /** One more post of a batch is one more step over the tally of the posts before it. */
  lemma ApplyPostsSnoc(filterSpoilers: bool, search: RevealPolicy.Search, gameId: int, teamId: int, now: int,
                       store: map<string, SocialPost>, batch: seq<CollectedPost>, i: nat)
    requires i < |batch|
    ensures ApplyPosts(filterSpoilers, search, gameId, teamId, now, store, batch[..i + 1])
      == Step(filterSpoilers, search, gameId, teamId, now, ApplyPosts(filterSpoilers, search, gameId, teamId, now, store, batch[..i]), batch[i])
  {
    assert batch[..i + 1][..i] == batch[..i];
  }

  /** Some post of the batch that is not filtered has this URL. */
  predicate KeptUrl(filterSpoilers: bool, search: RevealPolicy.Search, posts: seq<CollectedPost>, url: string) {
    exists i :: 0 <= i < |posts| && posts[i].postUrl == url && !IsFiltered(filterSpoilers, search, posts[i])
  }

  /** A batch keeps a URL iff its earlier posts do or its last post does. */
  lemma KeptUrlSnoc(filterSpoilers: bool, search: RevealPolicy.Search, posts: seq<CollectedPost>, url: string)
    requires posts != []
    ensures var last := posts[|posts| - 1];
      KeptUrl(filterSpoilers, search, posts, url) <==>
        KeptUrl(filterSpoilers, search, posts[..|posts| - 1], url) || (last.postUrl == url && !IsFiltered(filterSpoilers, search, last))
  {
    var init := posts[..|posts| - 1];
    if KeptUrl(filterSpoilers, search, posts, url) {
      var i :| 0 <= i < |posts| && posts[i].postUrl == url && !IsFiltered(filterSpoilers, search, posts[i]);
      if i < |posts| - 1 {
        assert init[i] == posts[i];
      }
    }
    if KeptUrl(filterSpoilers, search, init, url) {
      var i :| 0 <= i < |init| && init[i].postUrl == url && !IsFiltered(filterSpoilers, search, init[i]);
      assert posts[i] == init[i];
    }
  }

  /** The rows after a batch are those already stored plus one per unfiltered post's URL. */
  lemma {:induction false} ApplyPostsKeys(filterSpoilers: bool, search: RevealPolicy.Search, gameId: int, teamId: int, now: int,
                                          store: map<string, SocialPost>, posts: seq<CollectedPost>, url: string)
    ensures url in ApplyPosts(filterSpoilers, search, gameId, teamId, now, store, posts).store <==>
      url in store || KeptUrl(filterSpoilers, search, posts, url)
    decreases |posts|
  {
    if posts != [] {
      ApplyPostsKeys(filterSpoilers, search, gameId, teamId, now, store, posts[..|posts| - 1], url);
      KeptUrlSnoc(filterSpoilers, search, posts, url);
    }
  }

  /** Rows already stored keep their game and team: an update never moves a post. */
  lemma {:induction false} ApplyPostsKeepsOwners(filterSpoilers: bool, search: RevealPolicy.Search, gameId: int, teamId: int, now: int,
                                                 store: map<string, SocialPost>, posts: seq<CollectedPost>, url: string)
    requires url in store
    ensures var t := ApplyPosts(filterSpoilers, search, gameId, teamId, now, store, posts);
      url in t.store && t.store[url].gameId == store[url].gameId && t.store[url].teamId == store[url].teamId
    decreases |posts|
  {
    if posts != [] {
      ApplyPostsKeepsOwners(filterSpoilers, search, gameId, teamId, now, store, posts[..|posts| - 1], url);
    }
  }

  /** A post filtered as a spoiler never reaches the store: with filtering on, a batch of spoilers changes nothing. */
  lemma {:induction false} SpoilersLeaveStoreAlone(search: RevealPolicy.Search, gameId: int, teamId: int, now: int,
                                                  store: map<string, SocialPost>, posts: seq<CollectedPost>)
    requires forall i :: 0 <= i < |posts| ==> IsFiltered(true, search, posts[i])
    ensures ApplyPosts(true, search, gameId, teamId, now, store, posts) == Tally(store, |posts|, 0, 0)
    decreases |posts|
  {
    if posts != [] {
      SpoilersLeaveStoreAlone(search, gameId, teamId, now, store, posts[..|posts| - 1]);
    }
  }

  /** The result and the session after a whole job. */
  datatype JobRun = JobRun(result: JobResult, postsUpdated: nat, store: map<string, SocialPost>, commits: nat)

  /**
   * `run_job`: a failed fetch leaves only its message; a missing team leaves the error
   * "Team not found: <abbr>" and nothing saved; otherwise the batch is applied and committed
   * when something was saved or updated, a failed commit leaving its message.
   */
  function RunJobSpec(filterSpoilers: bool, search: RevealPolicy.Search, teams: seq<Team>,
                      store: map<string, SocialPost>, commits: nat, job: Job,
                      collected: Result<seq<CollectedPost>, string>, now: int, commitError: Option<string>): JobRun
  {
    match collected
    case Failure(e) => JobRun(JobResult(job, 0, 0, 0, [e], false), 0, store, commits)
    case Success(posts) =>
      match TeamByAbbreviation(teams, job.teamAbbreviation)
      case None =>
        JobRun(JobResult(job, |posts|, 0, 0, ["Team not found: " + job.teamAbbreviation], false), 0, store, commits)
      case Some(team) =>
        var t := ApplyPosts(filterSpoilers, search, job.gameId, team.id, now, store, posts);
        var commitAttempted := t.saved > 0 || t.updated > 0;
        var failed := commitAttempted && commitError.Some?;
        JobRun(JobResult(job, |posts|, t.saved, t.filtered, if failed then [commitError.value] else [], !failed),
               t.updated, t.store, if commitAttempted && !failed then commits + 1 else commits)
  }

  /** The counts of a job that found its team and committed add up to what was fetched. */
  lemma RunJobCountsAddUp(filterSpoilers: bool, search: RevealPolicy.Search, teams: seq<Team>,
                          store: map<string, SocialPost>, commits: nat, job: Job,
                          posts: seq<CollectedPost>, now: int, commitError: Option<string>)
    requires TeamByAbbreviation(teams, job.teamAbbreviation).Some?
    ensures var run := RunJobSpec(filterSpoilers, search, teams, store, commits, job, Success(posts), now, commitError);
      && run.result.postsFound == |posts|
      && run.result.postsFiltered + run.postsUpdated + run.result.postsSaved == |posts|
      && |run.store| == |store| + run.result.postsSaved
      && (run.commits == commits + 1 <==> (run.result.postsSaved > 0 || run.postsUpdated > 0) && commitError.None?)
  {
  }

  /** A job whose team is missing saves nothing and reports exactly that. */
  lemma MissingTeamSavesNothing(filterSpoilers: bool, search: RevealPolicy.Search, teams: seq<Team>,
                                store: map<string, SocialPost>, commits: nat, job: Job,
                                posts: seq<CollectedPost>, now: int, commitError: Option<string>)
    requires forall i :: 0 <= i < |teams| ==> Lower(teams[i].abbreviation) != Lower(job.teamAbbreviation)
    ensures var run := RunJobSpec(filterSpoilers, search, teams, store, commits, job, Success(posts), now, commitError);
      && run.result.errors == ["Team not found: " + job.teamAbbreviation]
      && run.result.postsSaved == 0 && run.store == store && run.commits == commits
  {
  }

  // ---------------------------------------------------------------------------------------
  // The session and the collector

  class SocialDb {
    var teams: seq<Team>
    var games: seq<Game>
    /** `game_social_posts`, keyed by `post_url`. */
    var posts: map<string, SocialPost>
    var commits: nat

    constructor (teams0: seq<Team>, games0: seq<Game>, posts0: map<string, SocialPost>)
      ensures teams == teams0 && games == games0 && posts == posts0 && commits == 0
    {
      teams := teams0;
      games := games0;
      posts := posts0;
      commits := 0;
    }

    /** The loop of `run_job`: each post is filtered, updates the row with its URL, or adds one. */
    method SavePosts(filterSpoilers: bool, search: RevealPolicy.Search, gameId: int, teamId: int, now: int,
                     batch: seq<CollectedPost>) returns (filtered: nat, updated: nat, saved: nat)
      modifies this
      ensures Tally(posts, filtered, updated, saved) == ApplyPosts(filterSpoilers, search, gameId, teamId, now, old(posts), batch)
      ensures teams == old(teams) && games == old(games) && commits == old(commits)
    {
      filtered, updated, saved := 0, 0, 0;
      ghost var start := posts;
      var i := 0;
      while i < |batch|
        invariant 0 <= i <= |batch|
        invariant Tally(posts, filtered, updated, saved) == ApplyPosts(filterSpoilers, search, gameId, teamId, now, start, batch[..i])
        invariant teams == old(teams) && games == old(games) && commits == old(commits)
      {
        var post := batch[i];
        ghost var next := Step(filterSpoilers, search, gameId, teamId, now, Tally(posts, filtered, updated, saved), post);
        ApplyPostsSnoc(filterSpoilers, search, gameId, teamId, now, start, batch, i);
        if IsFiltered(filterSpoilers, search, post) {
          filtered := filtered + 1;
        } else if post.postUrl in posts {
          posts := posts[post.postUrl := Refreshed(posts[post.postUrl], post, now)];
          updated := updated + 1;
        } else {
          posts := posts[post.postUrl := Created(gameId, teamId, post, now)];
          saved := saved + 1;
        }
        assert Tally(posts, filtered, updated, saved) == next;
        i := i + 1;
      }
      assert batch[..|batch|] == batch;
    }
  }

  /** The results of jobs run one after another in one session, and the posts and commits they leave. */
  datatype Session = Session(results: seq<JobResult>, store: map<string, SocialPost>, commits: nat)

  /**
   * Jobs run in order by one collector: each job fetches its handle with `strategy` and runs over
   * the posts and commits the jobs before it left.
   */
  function RunJobsSpec(filterSpoilers: bool, search: RevealPolicy.Search, strategy: Strategy, teams: seq<Team>,
                       store: map<string, SocialPost>, commits: nat, jobs: seq<Job>,
                       fetch: string -> Result<seq<CollectedPost>, string>, now: int, commitError: Option<string>): (s: Session)
    ensures |s.results| == |jobs|
    ensures forall k :: 0 <= k < |jobs| ==> s.results[k].job == jobs[k]
    ensures commits <= s.commits <= commits + |jobs|
    decreases |jobs|
  {
    if jobs == [] then Session([], store, commits)
    else
      var before := RunJobsSpec(filterSpoilers, search, strategy, teams, store, commits, jobs[..|jobs| - 1], fetch, now, commitError);
      var job := jobs[|jobs| - 1];
      var run := RunJobSpec(filterSpoilers, search, teams, before.store, before.commits, job,
                            CollectPosts(strategy, fetch(job.xHandle)), now, commitError);
      Session(before.results + [run.result], run.store, run.commits)
  }

  /** One more job runs over what the jobs before it left. */
  lemma RunJobsSnoc(filterSpoilers: bool, search: RevealPolicy.Search, strategy: Strategy, teams: seq<Team>,
                    store: map<string, SocialPost>, commits: nat, jobs: seq<Job>, job: Job,
                    fetch: string -> Result<seq<CollectedPost>, string>, now: int, commitError: Option<string>)
    ensures var before := RunJobsSpec(filterSpoilers, search, strategy, teams, store, commits, jobs, fetch, now, commitError);
      var run := RunJobSpec(filterSpoilers, search, teams, before.store, before.commits, job,
                            CollectPosts(strategy, fetch(job.xHandle)), now, commitError);
      RunJobsSpec(filterSpoilers, search, strategy, teams, store, commits, jobs + [job], fetch, now, commitError)
        == Session(before.results + [run.result], run.store, run.commits)
  {
    assert (jobs + [job])[..|jobs|] == jobs;
  }

  /** Job `k`'s result is its run over the posts and commits that jobs `0..k-1` left. */
  lemma {:induction false} EachJobSeesThoseBefore(filterSpoilers: bool, search: RevealPolicy.Search, strategy: Strategy,
                                                  teams: seq<Team>, store: map<string, SocialPost>, commits: nat, jobs: seq<Job>,
                                                  fetch: string -> Result<seq<CollectedPost>, string>, now: int,
                                                  commitError: Option<string>, k: nat)
    requires k < |jobs|
    ensures var before := RunJobsSpec(filterSpoilers, search, strategy, teams, store, commits, jobs[..k], fetch, now, commitError);
      RunJobsSpec(filterSpoilers, search, strategy, teams, store, commits, jobs, fetch, now, commitError).results[k]
        == RunJobSpec(filterSpoilers, search, teams, before.store, before.commits, jobs[k],
                      CollectPosts(strategy, fetch(jobs[k].xHandle)), now, commitError).result
    decreases |jobs|
  {
    if k == |jobs| - 1 {
      assert jobs[..|jobs| - 1] == jobs[..k];
    } else {
      EachJobSeesThoseBefore(filterSpoilers, search, strategy, teams, store, commits, jobs[..|jobs| - 1], fetch, now, commitError, k);
      assert jobs[..|jobs| - 1][..k] == jobs[..k];
    }
  }

  /** One job never drops a stored post nor moves it to another game or team. */
  lemma RunJobKeepsOwners(filterSpoilers: bool, search: RevealPolicy.Search, teams: seq<Team>,
                          store: map<string, SocialPost>, commits: nat, job: Job,
                          collected: Result<seq<CollectedPost>, string>, now: int, commitError: Option<string>, url: string)
    requires url in store
    ensures var run := RunJobSpec(filterSpoilers, search, teams, store, commits, job, collected, now, commitError);
      url in run.store && run.store[url].gameId == store[url].gameId && run.store[url].teamId == store[url].teamId
  {
    if collected.Success? {
      var team := TeamByAbbreviation(teams, job.teamAbbreviation);
      if team.Some? {
        ApplyPostsKeepsOwners(filterSpoilers, search, job.gameId, team.value.id, now, store, collected.value, url);
      }
    }
  }

  /** Across a game's jobs, a stored post stays stored and keeps its game and team. */
  lemma {:induction false} RunJobsKeepOwners(filterSpoilers: bool, search: RevealPolicy.Search, strategy: Strategy,
                                             teams: seq<Team>, store: map<string, SocialPost>, commits: nat, jobs: seq<Job>,
                                             fetch: string -> Result<seq<CollectedPost>, string>, now: int,
                                             commitError: Option<string>, url: string)
    requires url in store
    ensures var s := RunJobsSpec(filterSpoilers, search, strategy, teams, store, commits, jobs, fetch, now, commitError);
      url in s.store && s.store[url].gameId == store[url].gameId && s.store[url].teamId == store[url].teamId
    decreases |jobs|
  {
    if jobs != [] {
      var before := RunJobsSpec(filterSpoilers, search, strategy, teams, store, commits, jobs[..|jobs| - 1], fetch, now, commitError);
      RunJobsKeepOwners(filterSpoilers, search, strategy, teams, store, commits, jobs[..|jobs| - 1], fetch, now, commitError, url);
      var job := jobs[|jobs| - 1];
      RunJobKeepsOwners(filterSpoilers, search, teams, before.store, before.commits, job,
                        CollectPosts(strategy, fetch(job.xHandle)), now, commitError, url);
    }
  }

  class XPostCollector {
    const strategy: Strategy
    const filterSpoilers: bool

    /** `XPostCollector(strategy, filter_spoilers)`: without a strategy, the browser one if available, else the mock. */
    constructor (given: Option<Strategy>, playwrightAvailable: bool, filterSpoilers: bool)
      ensures given.Some? ==> strategy == given.value
      ensures given.None? ==> strategy == DefaultStrategy(playwrightAvailable)
      ensures this.filterSpoilers == filterSpoilers
    {
      strategy := if given.Some? then given.value else DefaultStrategy(playwrightAvailable);
      this.filterSpoilers := filterSpoilers;
    }

    /**
     * `run_job`. `fetched` is what the browser strategy would return or raise; `commitError` the
     * message of a commit that raises. `postsUpdated` is the local counter the source logs.
     */
    method RunJob(job: Job, db: SocialDb, search: RevealPolicy.Search, fetched: Result<seq<CollectedPost>, string>,
                  now: int, commitError: Option<string>) returns (result: JobResult, postsUpdated: nat)
      modifies db
      ensures var run := RunJobSpec(filterSpoilers, search, old(db.teams), old(db.posts), old(db.commits), job,
                                    CollectPosts(strategy, fetched), now, commitError);
        && result == run.result && postsUpdated == run.postsUpdated
        && db.posts == run.store && db.commits == run.commits
      ensures db.teams == old(db.teams) && db.games == old(db.games)
    {
      var collected := CollectPosts(strategy, fetched);
      if collected.Failure? {
        return JobResult(job, 0, 0, 0, [collected.error], false), 0;
      }
      var posts := collected.value;
      var team := TeamByAbbreviation(db.teams, job.teamAbbreviation);
      if team.None? {
        return JobResult(job, |posts|, 0, 0, ["Team not found: " + job.teamAbbreviation], false), 0;
      }
      var filtered, saved;
      filtered, postsUpdated, saved := db.SavePosts(filterSpoilers, search, job.gameId, team.value.id, now, posts);
      var errors: seq<string> := [];
      var completed := true;
      if saved > 0 || postsUpdated > 0 {
        if commitError.Some? {
          errors := [commitError.value];
          completed := false;
        } else {
          db.commits := db.commits + 1;
        }
      }
      result := JobResult(job, |posts|, saved, filtered, errors, completed);
    }

    /**
     * `collect_for_game`: nothing for a missing game or team; otherwise one job per team that
     * has an X handle, home before away, over the game day's window (`window` maps the game
     * date to the window's two ends). `fetch` gives the browser strategy's outcome per handle.
     */
    method CollectForGame(db: SocialDb, gameId: int, search: RevealPolicy.Search, window: int -> (int, int),
                          fetch: string -> Result<seq<CollectedPost>, string>, now: int, commitError: Option<string>)
      returns (results: seq<JobResult>)
      modifies db
      ensures var game := ById(old(db.games), GameId, gameId);
        (game.None? || ById(old(db.teams), TeamId, game.value.homeTeamId).None? || ById(old(db.teams), TeamId, game.value.awayTeamId).None?)
        ==> results == [] && db.posts == old(db.posts) && db.commits == old(db.commits)
      ensures var game := ById(old(db.games), GameId, gameId);
        game.Some? && ById(old(db.teams), TeamId, game.value.homeTeamId).Some? && ById(old(db.teams), TeamId, game.value.awayTeamId).Some? ==>
          var home, away := ById(old(db.teams), TeamId, game.value.homeTeamId).value, ById(old(db.teams), TeamId, game.value.awayTeamId).value;
          var s := RunJobsSpec(filterSpoilers, search, strategy, old(db.teams), old(db.posts), old(db.commits),
                               JobsFor(gameId, [home, away], window(game.value.gameDate)), fetch, now, commitError);
          results == s.results && db.posts == s.store && db.commits == s.commits
      ensures |results| <= 2
      ensures db.teams == old(db.teams) && db.games == old(db.games)
    {
      var game := ById(db.games, GameId, gameId);
      if game.None? {
        return [];
      }
      var home := ById(db.teams, TeamId, game.value.homeTeamId);
      var away := ById(db.teams, TeamId, game.value.awayTeamId);
      if home.None? || away.None? {
        return [];
      }
      results := RunTeamJobs(db, gameId, [home.value, away.value], window(game.value.gameDate), search, fetch, now, commitError);
    }

    /** The loop of `collect_for_game`: each team with an X handle gets a job, run in turn. */
    method RunTeamJobs(db: SocialDb, gameId: int, teams: seq<Team>, window: (int, int), search: RevealPolicy.Search,
                       fetch: string -> Result<seq<CollectedPost>, string>, now: int, commitError: Option<string>)
      returns (results: seq<JobResult>)
      modifies db
      ensures Session(results, db.posts, db.commits)
        == RunJobsSpec(filterSpoilers, search, strategy, old(db.teams), old(db.posts), old(db.commits),
                       JobsFor(gameId, teams, window), fetch, now, commitError)
      ensures db.teams == old(db.teams) && db.games == old(db.games)
    {
      ghost var teams0, store0, commits0 := db.teams, db.posts, db.commits;
      results := [];
      var i := 0;
      while i < |teams|
        invariant 0 <= i <= |teams|
        invariant Session(results, db.posts, db.commits)
          == RunJobsSpec(filterSpoilers, search, strategy, teams0, store0, commits0,
                         JobsFor(gameId, teams[..i], window), fetch, now, commitError)
        invariant db.teams == teams0 && db.games == old(db.games)
      {
        var team := teams[i];
        RunTeamJobsStep(filterSpoilers, search, strategy, teams0, store0, commits0,
                        gameId, teams, i, window, fetch, now, commitError);
        if team.xHandle.Some? && team.xHandle.value != "" {
          var job := Job(gameId, team.abbreviation, team.xHandle.value, window.0, window.1);
          ghost var run := RunJobSpec(filterSpoilers, search, db.teams, db.posts, db.commits, job,
                                      CollectPosts(strategy, fetch(job.xHandle)), now, commitError);
          var result, _ := RunJob(job, db, search, fetch(team.xHandle.value), now, commitError);
          assert result == run.result && db.posts == run.store && db.commits == run.commits;
          results := results + [result];
        }
        i := i + 1;
      }
      assert teams[..|teams|] == teams;
    }
  }

  /** The jobs `collect_for_game` runs for its teams, in order: one per team with a non-empty handle. */
  function JobsFor(gameId: int, teams: seq<Team>, window: (int, int)): (jobs: seq<Job>)
    ensures |jobs| <= |teams|
    ensures forall k :: 0 <= k < |jobs| ==> jobs[k].gameId == gameId && jobs[k].xHandle != ""
  {
    if teams == [] then []
    else
      var rest := JobsFor(gameId, teams[..|teams| - 1], window);
      var team := teams[|teams| - 1];
      if team.xHandle.Some? && team.xHandle.value != "" then
        rest + [Job(gameId, team.abbreviation, team.xHandle.value, window.0, window.1)]
      else rest
  }

  lemma JobsForPrefix(gameId: int, teams: seq<Team>, i: nat, window: (int, int))
    requires i < |teams|
    ensures var team := teams[i];
      JobsFor(gameId, teams[..i + 1], window) ==
        JobsFor(gameId, teams[..i], window)
        + (if team.xHandle.Some? && team.xHandle.value != ""
           then [Job(gameId, team.abbreviation, team.xHandle.value, window.0, window.1)] else [])
  {
    assert teams[..i + 1][..i] == teams[..i];
  }

  /** One more team of `collect_for_game`'s loop: its job runs after the earlier ones, if it has a handle. */
  lemma RunTeamJobsStep(filterSpoilers: bool, search: RevealPolicy.Search, strategy: Strategy, dbTeams: seq<Team>,
                        store: map<string, SocialPost>, commits: nat, gameId: int, teams: seq<Team>, i: nat,
                        window: (int, int), fetch: string -> Result<seq<CollectedPost>, string>, now: int,
                        commitError: Option<string>)
    requires i < |teams|
    ensures var before := RunJobsSpec(filterSpoilers, search, strategy, dbTeams, store, commits,
                                      JobsFor(gameId, teams[..i], window), fetch, now, commitError);
      var team := teams[i];
      RunJobsSpec(filterSpoilers, search, strategy, dbTeams, store, commits,
                  JobsFor(gameId, teams[..i + 1], window), fetch, now, commitError)
        == if team.xHandle.Some? && team.xHandle.value != "" then
             var job := Job(gameId, team.abbreviation, team.xHandle.value, window.0, window.1);
             var run := RunJobSpec(filterSpoilers, search, dbTeams, before.store, before.commits, job,
                                   CollectPosts(strategy, fetch(job.xHandle)), now, commitError);
             Session(before.results + [run.result], run.store, run.commits)
           else before
  {
    var jobs := JobsFor(gameId, teams[..i], window);
    var team := teams[i];
    JobsForPrefix(gameId, teams, i, window);
    if team.xHandle.Some? && team.xHandle.value != "" {
      var job := Job(gameId, team.abbreviation, team.xHandle.value, window.0, window.1);
      RunJobsSnoc(filterSpoilers, search, strategy, dbTeams, store, commits, jobs, job, fetch, now, commitError);
    } else {
      assert jobs + [] == jobs;
    }
  }

  /** When both teams have handles, the home team's job comes first. */
  lemma HomeJobFirst(gameId: int, home: Team, away: Team, window: (int, int))
    requires home.xHandle.Some? && home.xHandle.value != ""
    ensures var jobs := JobsFor(gameId, [home, away], window);
      |jobs| >= 1 && jobs[0].teamAbbreviation == home.abbreviation && jobs[0].xHandle == home.xHandle.value
  {
    assert [home, away][..1] == [home];
    assert [home][..0] == [];
  }
}
