/**
 * The portfolio endpoints (server/internal/controller/portfolio.go). A handler
 * sees the database and the Redis server as they are when the request arrives and
 * returns them as it leaves them, together with the one reply it wrote. The
 * caller's openid is what the auth middleware stored; fresh uids come from the
 * oracle `uuid`, whose argument numbers the draws of one request from 0.
 */
module PortfolioUsecase {
  import opened Wrappers
  import opened Entities
  import opened Response
  import opened PortfolioStore
  import opened Tables
  import Cache
  import Ranking
  import History
  import opened Minting

  datatype World = World(db: Db, cache: Cache.Redis)

  datatype Handled = Handled(world: World, reply: Reply)

  function AsOption<T, E>(r: Result<T, E>): (o: Option<T>)
    ensures o.Some? <==> r.Ok?
    ensures o.Some? ==> o.value == r.value
  {
    match r
    case Ok(v) => Some(v)
    case Err(_) => None
  }

  // ---------------------------------------------------------------------------
  // Cache-aside reads
  // ---------------------------------------------------------------------------

  /**
   * `GetAllTemplates`: the cached list when there is one; otherwise the table,
   * written back to the cache. Only a failed query fails the request.
   */
  function GetAllTemplates(w: World): (r: Handled)
    ensures var hit := Cache.Hit(w.cache, Cache.TemplatesKey, Cache.DecodeTemplates);
      (hit ==> r == Handled(w, SuccessResponse(TemplateList(TemplatesFromRedis(w.cache).value)))) &&
      (!hit && w.db.up ==> r.reply == SuccessResponse(TemplateList(w.db.templates))) &&
      (!hit && !w.db.up ==> r == Handled(w, ErrorResponse(ServerError))) &&
      (!hit && w.db.up && w.cache.up ==> TemplatesFromRedis(r.world.cache) == Ok(w.db.templates))
    ensures r.world.db == w.db
    ensures forall openid :: PortfoliosFromRedis(r.world.cache, openid) == PortfoliosFromRedis(w.cache, openid)
  {
    var f := Cache.ReadThrough(w.cache, Cache.TemplatesKey, Cache.DecodeTemplates, Cache.EncodeTemplates, AsOption(AllTemplates(w.db)));
    assert forall openid :: Cache.PortfoliosKey(openid) != Cache.TemplatesKey by {
      forall openid ensures Cache.PortfoliosKey(openid) != Cache.TemplatesKey {
        Cache.PortfoliosKeysAreSeparate(openid, openid);
      }
    }
    match f.value
    case None => Handled(w, ErrorResponse(ServerError))
    case Some(ts) => Handled(w.(cache := f.cache), SuccessResponse(TemplateList(ts)))
  }

  /**
   * After a miss that the database answered, the next request is served from the
   * cache with the same list, even if the database has gone down meanwhile.
   */
  lemma TemplatesServedFromCacheAfterMiss(w: World, later: Db)
    requires w.cache.up && w.db.up
    requires !Cache.Hit(w.cache, Cache.TemplatesKey, Cache.DecodeTemplates)
    ensures var first := GetAllTemplates(w);
      GetAllTemplates(first.world.(db := later)) == Handled(first.world.(db := later), first.reply)
  {
    var first := GetAllTemplates(w);
    assert TemplatesFromRedis(first.world.cache) == Ok(w.db.templates);
  }

  /** The cache-aside read of one user's portfolio list. */
  function MyPortfolios(w: World, openid: string): Cache.Fetched<Portfolio> {
    Cache.ReadThrough(w.cache, Cache.PortfoliosKey(openid), Cache.DecodePortfolios, Cache.EncodePortfolios,
                      AsOption(PortfoliosOf(w.db, openid)))
  }

  /**
   * `GetMyPortfolios`: the caller's cached list when there is one; otherwise the
   * caller's portfolios from the database, written back under the caller's key.
   * No other user's list and not the template list is touched.
   */
  function GetMyPortfolios(w: World, openid: string): (r: Handled)
    ensures var hit := Cache.Hit(w.cache, Cache.PortfoliosKey(openid), Cache.DecodePortfolios);
      (hit ==> r == Handled(w, SuccessResponse(PortfolioList(PortfoliosFromRedis(w.cache, openid).value)))) &&
      (!hit && w.db.up ==> r.reply == SuccessResponse(PortfolioList(PortfoliosOf(w.db, openid).value))) &&
      (!hit && !w.db.up ==> r == Handled(w, ErrorResponse(ServerError))) &&
      (!hit && w.db.up && w.cache.up ==> PortfoliosFromRedis(r.world.cache, openid) == Ok(PortfoliosOf(w.db, openid).value))
    ensures r.world.db == w.db
    ensures forall other :: other != openid ==> PortfoliosFromRedis(r.world.cache, other) == PortfoliosFromRedis(w.cache, other)
    ensures TemplatesFromRedis(r.world.cache) == TemplatesFromRedis(w.cache)
    ensures Ranked(r.world.cache) == Ranked(w.cache)
  {
    var f := MyPortfolios(w, openid);
    assert forall other :: other != openid ==> Cache.PortfoliosKey(other) != Cache.PortfoliosKey(openid) by {
      forall other | other != openid ensures Cache.PortfoliosKey(other) != Cache.PortfoliosKey(openid) {
        Cache.PortfoliosKeysAreSeparate(other, openid);
      }
    }
    Cache.PortfoliosKeysAreSeparate(openid, openid);
    match f.value
    case None => Handled(w, ErrorResponse(ServerError))
    case Some(ps) => Handled(w.(cache := f.cache), SuccessResponse(PortfolioList(ps)))
  }

  /**
   * `GetHistoricalUsageTemplates`: the same cache-aside read as GetMyPortfolios,
   * answered with the templates of the list's first use of each template uid.
   */
  function GetHistoricalUsageTemplates(w: World, openid: string): (r: Handled)
    ensures var f := MyPortfolios(w, openid);
      (f.value.None? ==> r == Handled(w, ErrorResponse(ServerError))) &&
      (f.value.Some? ==> r == Handled(w.(cache := f.cache), SuccessResponse(TemplateList(History.Historical(f.value.value)))))
  {
    var f := MyPortfolios(w, openid);
    match f.value
    case None => Handled(w, ErrorResponse(ServerError))
    case Some(ps) => Handled(w.(cache := f.cache), SuccessResponse(TemplateList(History.Historical(ps))))
  }

  /**
   * The history endpoint agrees with the list endpoint: it leaves the same state
   * behind, fails exactly when that one fails, and otherwise lists one template per
   * template uid of the portfolios that one would list, no more than there are.
   */
  lemma HistoryAgreesWithMyPortfolios(w: World, openid: string)
    ensures var mine := GetMyPortfolios(w, openid);
      var hist := GetHistoricalUsageTemplates(w, openid);
      hist.world == mine.world &&
      (hist.reply.status == 200 <==> mine.reply.status == 200) &&
      (mine.reply.status == 200 ==>
        var ps := mine.reply.body.data.portfolios;
        hist.reply == SuccessResponse(TemplateList(History.Historical(ps))) &&
        |History.Historical(ps)| <= |ps|)
  {
    ErrorStatusClasses(ServerError);
  }

  // ---------------------------------------------------------------------------
  // Lookups by uid
  // ---------------------------------------------------------------------------

  /** `GetTemplateByUID`: the template with the `uid` query parameter, or a server error. */
  function GetTemplateByUID(w: World, uidParam: Option<string>): (r: Reply)
    ensures var uid := Query(uidParam);
      (w.db.up && uid in Keys(w.db.templates, TemplateKey) ==>
        r.status == 200 && r.body.Envelope? && r.body.data.OneTemplate? &&
        r.body.data.template in w.db.templates && r.body.data.template.uid == uid) &&
      (!(w.db.up && uid in Keys(w.db.templates, TemplateKey)) ==> r == ErrorResponse(ServerError))
  {
    match TemplateByUid(w.db, Query(uidParam))
    case Ok(t) => SuccessResponse(OneTemplate(t))
    case Err(_) => ErrorResponse(ServerError)
  }

  /**
   * `GetPortfolioByUID`: the portfolio with the `uid` query parameter, whoever owns
   * it (the handler does not compare the owner with the caller).
   */
  function GetPortfolioByUID(w: World, uidParam: Option<string>): (r: Reply)
    ensures var uid := Query(uidParam);
      (w.db.up && uid in Keys(w.db.portfolios, PortfolioKey) ==>
        r.status == 200 && r.body.Envelope? && r.body.data.OnePortfolio? &&
        r.body.data.portfolio.uid == uid && PortfolioRowOf(r.body.data.portfolio) in w.db.portfolios) &&
      (!(w.db.up && uid in Keys(w.db.portfolios, PortfolioKey)) ==> r == ErrorResponse(ServerError))
  {
    match PortfolioByUid(w.db, Query(uidParam))
    case Ok(p) => SuccessResponse(OnePortfolio(p))
    case Err(_) => ErrorResponse(ServerError)
  }

  // ---------------------------------------------------------------------------
  // Hot templates
  // ---------------------------------------------------------------------------

  /**
   * The reply to a hot-template request once the ranking has been queried: the
   * stored templates whose uids the query returned; when Redis could not be
   * reached, the database fallback, which answers an empty list.
   */
  function AnswerHot(w: World, hot: Result<seq<string>, Cache.CacheError>): (r: Reply)
    ensures hot.Err? ==> r == SuccessResponse(TemplateList([]))
    ensures hot.Ok? && !w.db.up ==> r == ErrorResponse(ServerError)
    ensures hot.Ok? && w.db.up ==>
      r.status == 200 && r.body.Envelope? && r.body.data.TemplateList? &&
      (forall i :: 0 <= i < |r.body.data.templates| ==>
        r.body.data.templates[i] in w.db.templates && r.body.data.templates[i].uid in hot.value) &&
      (forall i :: 0 <= i < |w.db.templates| && w.db.templates[i].uid in hot.value ==>
        w.db.templates[i] in r.body.data.templates)
  {
    match hot
    case Ok(uids) =>
      (match TemplatesIn(w.db, uids)
       case Ok(ts) => SuccessResponse(TemplateList(ts))
       case Err(_) => ErrorResponse(ServerError))
    case Err(_) =>
      match HotFromDB(w.db)
      case Ok(ts) => SuccessResponse(TemplateList(ts))
      case Err(_) => ErrorResponse(ServerError)
  }

  /**
   * `GetHotTemplates`: the stored templates among those `ZRANGE zTemplates 0 5`
   * returns, that is among the six least used; an empty list when Redis is down.
   */
  function GetHotTemplates(w: World): (r: Reply)
    ensures !w.cache.up ==> r == SuccessResponse(TemplateList([]))
    ensures w.cache.up && !w.db.up ==> r == ErrorResponse(ServerError)
    ensures w.cache.up && w.db.up ==>
      var hot := HotFromRedis(w.cache).value;
      r.status == 200 && r.body.Envelope? && r.body.data.TemplateList? &&
      (forall i :: 0 <= i < |r.body.data.templates| ==>
        r.body.data.templates[i] in w.db.templates && r.body.data.templates[i].uid in hot) &&
      (forall i :: 0 <= i < |w.db.templates| && w.db.templates[i].uid in hot ==>
        w.db.templates[i] in r.body.data.templates)
  {
    AnswerHot(w, HotFromRedis(w.cache))
  }

  /**
   * In a well-formed cache, a template the hot list names has been used no more
   * often than any ranked template it leaves out: the list is of the coldest.
   */
  lemma HotTemplatesAreColdest(w: World, t: Template, u: Template)
    requires w.cache.up && w.db.up && WellFormed(w.cache)
    requires t in GetHotTemplates(w).body.data.templates
    requires u in w.db.templates && u !in GetHotTemplates(w).body.data.templates
    requires Ranking.ScoreOf(Ranked(w.cache), u.uid).Some?
    ensures Ranking.ScoreOrZero(Ranked(w.cache), t.uid) <= Ranking.ScoreOrZero(Ranked(w.cache), u.uid)
  {
    var z := Ranked(w.cache);
    if HotKey in w.cache.zsets {
      assert Ranking.Sorted(w.cache.zsets[HotKey]);
    }
    var hot := HotFromRedis(w.cache).value;
    assert hot == Ranking.Range(z, 0, HotCount);
    var ts := TemplatesIn(w.db, hot).value;
    assert GetHotTemplates(w) == SuccessResponse(TemplateList(ts));
    assert t.uid in hot;
    assert u.uid !in hot;
    Ranking.RangeMemberUnderscores(z, HotCount, t.uid, u.uid);
  }

  /** `GetHotTemplates` on the corrected query: the stored templates among the five most used. */
  function GetHotTemplatesCorrected(w: World): (r: Reply)
    ensures !w.cache.up ==> r == SuccessResponse(TemplateList([]))
    ensures w.cache.up && !w.db.up ==> r == ErrorResponse(ServerError)
    ensures w.cache.up && w.db.up ==>
      var hot := HotFromRedisCorrected(w.cache).value;
      r.status == 200 && r.body.Envelope? && r.body.data.TemplateList? &&
      (forall i :: 0 <= i < |r.body.data.templates| ==>
        r.body.data.templates[i] in w.db.templates && r.body.data.templates[i].uid in hot) &&
      (forall i :: 0 <= i < |w.db.templates| && w.db.templates[i].uid in hot ==>
        w.db.templates[i] in r.body.data.templates)
  {
    AnswerHot(w, HotFromRedisCorrected(w.cache))
  }

  /**
   * In a well-formed cache, a ranked template the corrected hot list leaves out has
   * been used no more often than any template it lists.
   */
  lemma HotTemplatesAreHottest(w: World, t: Template, u: Template)
    requires w.cache.up && w.db.up && WellFormed(w.cache)
    requires t in GetHotTemplatesCorrected(w).body.data.templates
    requires u in w.db.templates && u !in GetHotTemplatesCorrected(w).body.data.templates
    requires Ranking.ScoreOf(Ranked(w.cache), u.uid).Some?
    ensures Ranking.ScoreOrZero(Ranked(w.cache), u.uid) <= Ranking.ScoreOrZero(Ranked(w.cache), t.uid)
  {
    var z := Ranked(w.cache);
    if HotKey in w.cache.zsets {
      assert Ranking.Sorted(w.cache.zsets[HotKey]);
    }
    var top := HotFromRedisCorrected(w.cache).value;
    assert top == Ranking.Top(z, HotCount);
    var ts := TemplatesIn(w.db, top).value;
    assert GetHotTemplatesCorrected(w) == SuccessResponse(TemplateList(ts));
    assert t.uid in top;
    assert u.uid !in top;
    Ranking.TopMemberOutscores(z, HotCount, t.uid, u.uid);
  }

  // ---------------------------------------------------------------------------
  // Saving a portfolio
  // ---------------------------------------------------------------------------

  /** The `SavePortfolioRequest` body. */
  datatype SaveRequest = SaveRequest(uid: string, title: string, templateUid: string, projects: seq<Project>)

  /** The portfolio the handler stores: the uid and project uids minted, the owner set. */
  function Prepare(req: SaveRequest, openid: string, uuid: nat -> string): (p: Portfolio)
    ensures req.uid != "" ==> p.uid == req.uid
    ensures req.uid == "" ==> p.uid == uuid(0)
    ensures p.openid == openid && p.title == req.title && p.templateUid == req.templateUid
    ensures p.projects == MintProjects(req.projects, p.uid, uuid, if req.uid == "" then 1 else 0)
  {
    var uid := if req.uid == "" then uuid(0) else req.uid;
    Portfolio(uid, openid, req.title, MintProjects(req.projects, uid, uuid, if req.uid == "" then 1 else 0),
              req.templateUid, ZeroTemplate)
  }

  /** Whether the save commits and is the creation of a new portfolio whose template ranking is bumped. */
  predicate Bumps(w: World, req: SaveRequest, openid: string, uuid: nat -> string, failAt: Option<Step>) {
    req.uid == "" && SavePortfolioToDB(w.db, Prepare(req, openid, uuid), failAt).err.None? && w.cache.up
  }

  /**
   * `SavePortfolio` once the body has bound: store the request's portfolio graph
   * for the caller; a newly created portfolio also bumps its template's ranking (a
   * failure there is only logged); the reply carries the uids and the template. A
   * failed save, which includes every request without projects, changes nothing.
   * The cached lists are never touched, so they go stale.
   */
  function Store(w: World, req: SaveRequest, openid: string, uuid: nat -> string, failAt: Option<Step>): (r: Handled)
    ensures var p := Prepare(req, openid, uuid);
      var saved := SavePortfolioToDB(w.db, p, failAt);
      (saved.err.Some? ==> r == Handled(w, ErrorResponse(ServerError))) &&
      (saved.err.None? ==> r.world.db == saved.db) &&
      (r.reply.status == 200 <==> saved.err.None? && req.templateUid in Keys(w.db.templates, TemplateKey)) &&
      (r.reply.status == 200 ==>
        r.reply.body.Envelope? && r.reply.body.data.SavedGraph? &&
        r.reply.body.data.uid == p.uid && r.reply.body.data.projects == Attached(p) &&
        r.reply.body.data.template in w.db.templates && r.reply.body.data.template.uid == req.templateUid) &&
      (r.reply.status != 200 ==> r.reply == ErrorResponse(ServerError))
    ensures r.world.cache.strings == w.cache.strings && r.world.cache.up == w.cache.up
    ensures Bumps(w, req, openid, uuid, failAt) ==>
      Ranking.ScoreOf(Ranked(r.world.cache), req.templateUid)
        == Some(Ranking.ScoreOrZero(Ranked(w.cache), req.templateUid) + 1)
    ensures !Bumps(w, req, openid, uuid, failAt) ==> r.world.cache == w.cache
    ensures forall m :: m != req.templateUid ==>
      Ranking.ScoreOf(Ranked(r.world.cache), m) == Ranking.ScoreOf(Ranked(w.cache), m)
    ensures WellFormed(w.cache) ==> WellFormed(r.world.cache)
  {
    var p := Prepare(req, openid, uuid);
    var saved := SavePortfolioToDB(w.db, p, failAt);
    if saved.err.Some? then Handled(w, ErrorResponse(ServerError))
    else
      var cache := if req.uid == "" then IncreTemplateScore(w.cache, req.templateUid).cache else w.cache;
      var after := World(saved.db, cache);
      match TemplateByUid(saved.db, req.templateUid)
      case Err(_) => Handled(after, ErrorResponse(ServerError))
      case Ok(t) => Handled(after, SuccessResponse(SavedGraph(p.uid, Attached(p), t)))
  }

  /** `SavePortfolio`: a body that does not bind is a server error and changes nothing. */
  function SavePortfolio(w: World, body: Option<SaveRequest>, openid: string, uuid: nat -> string,
                         failAt: Option<Step>): (r: Handled)
    ensures body.None? ==> r == Handled(w, ErrorResponse(ServerError))
    ensures body.Some? ==> r == Store(w, body.value, openid, uuid, failAt)
  {
    match body
    case None => Handled(w, ErrorResponse(ServerError))
    case Some(req) => Store(w, req, openid, uuid, failAt)
  }

  /**
   * A user's cached list is not refreshed by a save: a list that was served from the
   * cache before the save is served, unchanged, after it.
   */
  lemma SaveLeavesCachedListStale(w: World, body: Option<SaveRequest>, openid: string, uuid: nat -> string,
                                  failAt: Option<Step>, reader: string)
    requires Cache.Hit(w.cache, Cache.PortfoliosKey(reader), Cache.DecodePortfolios)
    ensures var after := SavePortfolio(w, body, openid, uuid, failAt).world;
      GetMyPortfolios(after, reader).reply == GetMyPortfolios(w, reader).reply
  {
    var after := SavePortfolio(w, body, openid, uuid, failAt).world;
    if body.Some? {
      var r := Store(w, body.value, openid, uuid, failAt);
      assert after == r.world;
      assert after.cache.strings == w.cache.strings && after.cache.up == w.cache.up;
    }
    SameStringsSameHit(w.cache, after.cache, reader);
  }

  /** Two caches with the same strings and the same reachability answer a user's list alike. */
  lemma SameStringsSameHit(c: Cache.Redis, d: Cache.Redis, reader: string)
    requires c.strings == d.strings && c.up == d.up
    ensures Cache.Hit(d, Cache.PortfoliosKey(reader), Cache.DecodePortfolios) ==
            Cache.Hit(c, Cache.PortfoliosKey(reader), Cache.DecodePortfolios)
    ensures PortfoliosFromRedis(d, reader) == PortfoliosFromRedis(c, reader)
  {
    assert Cache.Get(d, Cache.PortfoliosKey(reader)) == Cache.Get(c, Cache.PortfoliosKey(reader));
  }

  /**
   * A request without projects is never stored: the unguarded projects statement
   * fails, so the handler answers a server error and the database, the cached lists
   * and the ranking are as they were.
   */
  lemma EmptyRequestRejected(w: World, req: SaveRequest, openid: string, uuid: nat -> string, failAt: Option<Step>)
    requires |req.projects| == 0
    ensures SavePortfolio(w, Some(req), openid, uuid, failAt) == Handled(w, ErrorResponse(ServerError))
  {
    assert |Prepare(req, openid, uuid).projects| == 0;
  }

  /**
   * Re-saving an existing portfolio (the request names its uid) updates it in place:
   * the number of portfolios and the template ranking stay as they were, and the
   * row now names the caller as its owner, whoever owned it before.
   */
  lemma ResaveUpdatesInPlace(w: World, req: SaveRequest, openid: string, uuid: nat -> string, failAt: Option<Step>)
    requires req.uid != "" && req.uid in Keys(w.db.portfolios, PortfolioKey)
    requires SaveCommits(w.db, Prepare(req, openid, uuid), failAt)
    ensures var after := SavePortfolio(w, Some(req), openid, uuid, failAt).world;
      |after.db.portfolios| == |w.db.portfolios| &&
      Ranked(after.cache) == Ranked(w.cache) &&
      Lookup(after.db.portfolios, PortfolioKey, req.uid).Some? &&
      Lookup(after.db.portfolios, PortfolioKey, req.uid).value.openid == openid
  {
  }

  /**
   * Creating a portfolio (the request has no uid) with a fresh uid adds exactly one
   * portfolio row, owned by the caller, and bumps the template once when Redis is up.
   */
  lemma CreateAddsOnePortfolio(w: World, req: SaveRequest, openid: string, uuid: nat -> string, failAt: Option<Step>)
    requires req.uid == "" && uuid(0) !in Keys(w.db.portfolios, PortfolioKey)
    requires SaveCommits(w.db, Prepare(req, openid, uuid), failAt)
    ensures var r := SavePortfolio(w, Some(req), openid, uuid, failAt);
      |r.world.db.portfolios| == |w.db.portfolios| + 1 &&
      Lookup(r.world.db.portfolios, PortfolioKey, uuid(0)) == Some(PortfolioRowOf(Prepare(req, openid, uuid))) &&
      Lookup(r.world.db.portfolios, PortfolioKey, uuid(0)).value.openid == openid &&
      (w.cache.up ==> Ranking.ScoreOf(Ranked(r.world.cache), req.templateUid)
                        == Some(Ranking.ScoreOrZero(Ranked(w.cache), req.templateUid) + 1))
  {
  }

  /**
   * After a committed save, every project the reply echoes is listed when the
   * portfolio is loaded again by its uid, under the same uid and owned by the
   * portfolio.
   */
  lemma SavedProjectsAreListed(w: World, req: SaveRequest, openid: string, uuid: nat -> string, failAt: Option<Step>, i: int)
    requires SaveCommits(w.db, Prepare(req, openid, uuid), failAt)
    requires 0 <= i < |req.projects|
    ensures var p := Prepare(req, openid, uuid);
      var r := SavePortfolio(w, Some(req), openid, uuid, failAt);
      var got := PortfolioByUid(r.world.db, p.uid);
      got.Ok? &&
      exists q :: q in got.value.projects && q.uid == p.projects[i].uid && q.portfolioUid == p.uid
  {
    var p := Prepare(req, openid, uuid);
    var after := SavePortfolioToDB(w.db, p, failAt).db;
    assert SavePortfolio(w, Some(req), openid, uuid, failAt).world.db == after;
    SaveListsEveryProject(w.db, p, failAt, i);
    var last := LastWith(ProjectRows(Attached(p)), ProjectKey, p.projects[i].uid).value;
    assert ProjectRowOf(LoadProject(after, last)) == last;
  }
}
