/**
 * The portfolio repository (server/internal/data/portfolio.go): the MySQL tables
 * behind templates and portfolios, the transaction that saves a portfolio graph,
 * and the Redis documents and template ranking kept beside them.
 */
module PortfolioStore {
  import opened Wrappers
  import opened Entities
  import opened Tables
  import Seqs
  import Ranking
  import Cache

  // ---------------------------------------------------------------------------
  // The database
  // ---------------------------------------------------------------------------

  /**
   * The tables, each in primary-key order. Pages are kept inside their template.
   * `up` is false while the database cannot be reached: every statement then fails.
   */
  datatype Db = Db(
    templates: seq<Template>,
    portfolios: seq<PortfolioRow>,
    projects: seq<ProjectRow>,
    works: seq<Work>,
    texts: seq<Text>,
    up: bool)

  datatype StoreError =
    | Unavailable          // the connection or the transaction could not be used
    | NotFound             // `First` found no row
    | StepFailed(step: Step)  // a statement of the save transaction was rejected
    | EmptySlice           // gorm refuses to `Create` an empty slice

  /** The four statements of the save transaction, in order. */
  datatype Step = PortfolioStep | ProjectsStep | WorksStep | TextsStep

  // The unique column of each table.
  function TemplateKey(t: Template): string { t.uid }
  function PortfolioKey(r: PortfolioRow): string { r.uid }
  function ProjectKey(r: ProjectRow): string { r.uid }
  function WorkKey(w: Work): string { w.ossKey }
  function TextKey(t: Text): string { t.uid }

  /** Every unique index holds. */
  ghost predicate Consistent(db: Db) {
    UniqueKeys(db.templates, TemplateKey) && UniqueKeys(db.portfolios, PortfolioKey) &&
    UniqueKeys(db.projects, ProjectKey) && UniqueKeys(db.works, WorkKey) &&
    UniqueKeys(db.texts, TextKey)
  }

  // ---------------------------------------------------------------------------
  // Template queries
  // ---------------------------------------------------------------------------

  /** `GetAllTemplatesFromDB`: every template with its pages. */
  function AllTemplates(db: Db): (r: Result<seq<Template>, StoreError>)
    ensures r.Ok? <==> db.up
    ensures r.Ok? ==> r.value == db.templates
  {
    if !db.up then Err(Unavailable) else Ok(db.templates)
  }

  function UidIn(uids: seq<string>): Template -> bool {
    (t: Template) => t.uid in uids
  }

  /**
   * `GetTemplatesFromDB`: the templates whose uid is listed, in table order (the
   * order of `uids` is not kept, and an unknown uid is simply absent).
   */
  function TemplatesIn(db: Db, uids: seq<string>): (r: Result<seq<Template>, StoreError>)
    ensures r.Ok? <==> db.up
    ensures r.Ok? ==> forall i :: 0 <= i < |r.value| ==> r.value[i] in db.templates && r.value[i].uid in uids
    ensures r.Ok? ==> forall i :: 0 <= i < |db.templates| && db.templates[i].uid in uids ==> db.templates[i] in r.value
  {
    if !db.up then Err(Unavailable) else Ok(Seqs.Filter(db.templates, UidIn(uids)))
  }

  /** `GetTemplateByUIDFromDB`: the template with that uid, with its pages. */
  function TemplateByUid(db: Db, uid: string): (r: Result<Template, StoreError>)
    ensures !db.up ==> r == Err(Unavailable)
    ensures db.up ==> (r.Ok? <==> uid in Keys(db.templates, TemplateKey))
    ensures r.Ok? ==> r.value in db.templates && r.value.uid == uid
    ensures r.Err? && db.up ==> r.error == NotFound
  {
    LookupFindsKeys(db.templates, TemplateKey, uid);
    if !db.up then Err(Unavailable)
    else match Lookup(db.templates, TemplateKey, uid)
      case Some(t) => Ok(t)
      case None => Err(NotFound)
  }

  // ---------------------------------------------------------------------------
  // Portfolio queries: Preload("Projects.Works").Preload("Template")
  // ---------------------------------------------------------------------------

  function OfProject(uid: string): Work -> bool {
    (w: Work) => w.projectUid == uid
  }

  function OfPortfolio(uid: string): ProjectRow -> bool {
    (r: ProjectRow) => r.portfolioUid == uid
  }

  function OwnedBy(openid: string): PortfolioRow -> bool {
    (r: PortfolioRow) => r.openid == openid
  }

  /** A project as the preload fills it: its works, but never its texts. */
  function LoadProject(db: Db, row: ProjectRow): (r: Project)
    ensures ProjectRowOf(r) == row
    ensures forall w :: w in r.works <==> w in db.works && w.projectUid == row.uid
    ensures r.texts == []
  {
    Project(row.uid, row.name, row.order, row.portfolioUid, Seqs.Filter(db.works, OfProject(row.uid)), [])
  }

  /**
   * The template a portfolio refers to, loaded without its pages; the Go zero
   * value when no template has that uid.
   */
  function LoadTemplate(db: Db, uid: string): (r: Template)
    ensures r.pages == []
    ensures uid in Keys(db.templates, TemplateKey) ==> r.uid == uid && r.(pages := Lookup(db.templates, TemplateKey, uid).value.pages) in db.templates
    ensures uid !in Keys(db.templates, TemplateKey) ==> r == ZeroTemplate
  {
    LookupFindsKeys(db.templates, TemplateKey, uid);
    match Lookup(db.templates, TemplateKey, uid)
    case Some(t) => t.(pages := [])
    case None => ZeroTemplate
  }

  /** A portfolio row with its projects (each with its works) and its template. */
  function LoadPortfolio(db: Db, row: PortfolioRow): (r: Portfolio)
    ensures PortfolioRowOf(r) == row
    ensures forall k :: 0 <= k < |r.projects| ==>
      r.projects[k].portfolioUid == row.uid && ProjectRowOf(r.projects[k]) in db.projects
    ensures forall pr :: pr in db.projects && pr.portfolioUid == row.uid ==> LoadProject(db, pr) in r.projects
    ensures r.template == LoadTemplate(db, row.templateUid)
  {
    var rows := Seqs.Filter(db.projects, OfPortfolio(row.uid));
    var projects := seq(|rows|, i requires 0 <= i < |rows| => LoadProject(db, rows[i]));
    assert forall pr :: pr in db.projects && pr.portfolioUid == row.uid ==> LoadProject(db, pr) in projects by {
      forall pr | pr in db.projects && pr.portfolioUid == row.uid
        ensures LoadProject(db, pr) in projects
      {
        var i :| 0 <= i < |db.projects| && db.projects[i] == pr;
        assert pr in rows;
        var j :| 0 <= j < |rows| && rows[j] == pr;
        assert projects[j] == LoadProject(db, pr);
      }
    }
    Portfolio(row.uid, row.openid, row.title, projects, row.templateUid, LoadTemplate(db, row.templateUid))
  }

  function RowsOf(ps: seq<Portfolio>): (r: seq<PortfolioRow>)
    ensures |r| == |ps| && forall i :: 0 <= i < |ps| ==> r[i] == PortfolioRowOf(ps[i])
  {
    seq(|ps|, i requires 0 <= i < |ps| => PortfolioRowOf(ps[i]))
  }

  /**
   * `GetPortfoliosFromDB`: the user's portfolios, loaded, in table order. The rows
   * behind the answer are exactly the user's rows.
   */
  function PortfoliosOf(db: Db, openid: string): (r: Result<seq<Portfolio>, StoreError>)
    ensures r.Ok? <==> db.up
    ensures r.Ok? ==> RowsOf(r.value) == Seqs.Filter(db.portfolios, OwnedBy(openid))
    ensures r.Ok? ==> forall i :: 0 <= i < |r.value| ==>
      r.value[i].openid == openid && r.value[i] == LoadPortfolio(db, PortfolioRowOf(r.value[i]))
  {
    if !db.up then Err(Unavailable)
    else
      var rows := Seqs.Filter(db.portfolios, OwnedBy(openid));
      var ps := seq(|rows|, i requires 0 <= i < |rows| => LoadPortfolio(db, rows[i]));
      assert RowsOf(ps) == rows;
      Ok(ps)
  }

  /** `GetPortfolioByUIDFromDB`: the loaded portfolio with that uid, whoever owns it. */
  function PortfolioByUid(db: Db, uid: string): (r: Result<Portfolio, StoreError>)
    ensures !db.up ==> r == Err(Unavailable)
    ensures db.up ==> (r.Ok? <==> uid in Keys(db.portfolios, PortfolioKey))
    ensures r.Ok? ==> r.value.uid == uid && PortfolioRowOf(r.value) in db.portfolios
    ensures r.Err? && db.up ==> r.error == NotFound
  {
    LookupFindsKeys(db.portfolios, PortfolioKey, uid);
    if !db.up then Err(Unavailable)
    else match Lookup(db.portfolios, PortfolioKey, uid)
      case Some(row) => Ok(LoadPortfolio(db, row))
      case None => Err(NotFound)
  }

  // ---------------------------------------------------------------------------
  // Flattening the graph before the save (data/portfolio.go:216-230)
  // ---------------------------------------------------------------------------

  /** The children `cs` of the project `uid`, each stamped with that project's uid. */
  function Stamp<C>(cs: seq<C>, uid: string, stamp: (C, string) -> C): (r: seq<C>)
    ensures |r| == |cs|
    ensures forall j :: 0 <= j < |cs| ==> r[j] == stamp(cs[j], uid)
  {
    seq(|cs|, j requires 0 <= j < |cs| => stamp(cs[j], uid))
  }

  /**
   * The children of every project, project by project, each stamped with its
   * project's uid: every child is there, nothing else is, and the result is empty
   * exactly when no project has children.
   */
  function Flatten<C>(ps: seq<Project>, children: Project -> seq<C>, stamp: (C, string) -> C): (r: seq<C>)
    ensures forall i, j :: 0 <= i < |ps| && 0 <= j < |children(ps[i])| ==> stamp(children(ps[i])[j], ps[i].uid) in r
    ensures forall c :: c in r ==> exists i, j :: 0 <= i < |ps| && 0 <= j < |children(ps[i])| && c == stamp(children(ps[i])[j], ps[i].uid)
    ensures |r| == 0 <==> forall i :: 0 <= i < |ps| ==> |children(ps[i])| == 0
    decreases |ps|
  {
    if |ps| == 0 then []
    else
      var init := ps[..|ps| - 1];
      var last := ps[|ps| - 1];
      var front := Flatten(init, children, stamp);
      var back := Stamp(children(last), last.uid, stamp);
      assert forall i :: 0 <= i < |init| ==> init[i] == ps[i];
      assert forall c :: c in back ==> exists j :: 0 <= j < |children(last)| && c == stamp(children(last)[j], last.uid);
      front + back
  }

  /**
   * The two nested loops that collect the children into one slice, stamping each
   * copy with the project uid; they build exactly Flatten.
   */
  method Collect<C>(ps: seq<Project>, children: Project -> seq<C>, stamp: (C, string) -> C) returns (out: seq<C>)
    ensures out == Flatten(ps, children, stamp)
  {
    out := [];
    var i := 0;
    while i < |ps|
      invariant 0 <= i <= |ps|
      invariant out == Flatten(ps[..i], children, stamp)
    {
      var project := ps[i];
      var cs := children(project);
      ghost var before := out;
      var j := 0;
      while j < |cs|
        invariant 0 <= j <= |cs|
        invariant out == before + Stamp(cs[..j], project.uid, stamp)
      {
        out := out + [stamp(cs[j], project.uid)];
        assert Stamp(cs[..j + 1], project.uid, stamp) == Stamp(cs[..j], project.uid, stamp) + [stamp(cs[j], project.uid)];
        j := j + 1;
      }
      assert cs[..|cs|] == cs;
      assert ps[..i + 1][..i] == ps[..i];
      i := i + 1;
    }
    assert ps[..|ps|] == ps;
  }

  function WorksOf(p: Project): seq<Work> { p.works }
  function TextsOf(p: Project): seq<Text> { p.texts }
  function StampWork(w: Work, uid: string): Work { w.(projectUid := uid) }
  function StampText(t: Text, uid: string): Text { t.(projectUid := uid) }

  /**
   * The column defaults the ORM substitutes for zero values on insert:
   * `Work.Scale` 0 becomes 1.0 and an empty `Text.FontColor` becomes "000000".
   */
  function WorkWithDefaults(w: Work): (r: Work)
    ensures r.scale != ZeroScale && r == w.(scale := r.scale)
    ensures w.scale != ZeroScale ==> r == w
  {
    if w.scale == ZeroScale then w.(scale := UnitScale) else w
  }

  function TextWithDefaults(t: Text): (r: Text)
    ensures r.fontColor != "" && r == t.(fontColor := r.fontColor)
    ensures t.fontColor != "" ==> r == t
  {
    if t.fontColor == "" then t.(fontColor := "000000") else t
  }

  /** The rows the works statement inserts for a request's projects. */
  function WorkRows(ps: seq<Project>): (r: seq<Work>)
    ensures forall i :: 0 <= i < |r| ==> r[i].scale != ZeroScale
    ensures |r| == 0 <==> forall i :: 0 <= i < |ps| ==> |ps[i].works| == 0
  {
    var flat := Flatten(ps, WorksOf, StampWork);
    seq(|flat|, i requires 0 <= i < |flat| => WorkWithDefaults(flat[i]))
  }

  /** The rows the texts statement inserts for a request's projects. */
  function TextRows(ps: seq<Project>): (r: seq<Text>)
    ensures forall i :: 0 <= i < |r| ==> r[i].fontColor != ""
    ensures |r| == 0 <==> forall i :: 0 <= i < |ps| ==> |ps[i].texts| == 0
  {
    var flat := Flatten(ps, TextsOf, StampText);
    seq(|flat|, i requires 0 <= i < |flat| => TextWithDefaults(flat[i]))
  }

  /**
   * The projects as the portfolio's `Create` leaves them. `Projects` is a has-many
   * association on `PortfolioUID`, and `Works` and `Texts` are has-many on
   * `ProjectUID`, so gorm saves the whole graph along with the portfolio. On the
   * way it sets each child's foreign key to its parent's uid and writes the column
   * defaults into zero fields, in place: the slice the projects statement inserts
   * and the one the handler echoes share those elements.
   */
  function Attached(p: Portfolio): (r: seq<Project>)
    ensures |r| == |p.projects|
    ensures forall i :: 0 <= i < |r| ==>
      ProjectRowOf(r[i]) == ProjectRowOf(p.projects[i]).(portfolioUid := p.uid) &&
      |r[i].works| == |p.projects[i].works| && |r[i].texts| == |p.projects[i].texts|
    ensures forall i, j :: 0 <= i < |r| && 0 <= j < |r[i].works| ==>
      r[i].works[j] == WorkWithDefaults(p.projects[i].works[j].(projectUid := p.projects[i].uid)) &&
      r[i].works[j].projectUid == p.projects[i].uid && r[i].works[j].scale != ZeroScale
    ensures forall i, j :: 0 <= i < |r| && 0 <= j < |r[i].texts| ==>
      r[i].texts[j] == TextWithDefaults(p.projects[i].texts[j].(projectUid := p.projects[i].uid)) &&
      r[i].texts[j].projectUid == p.projects[i].uid && r[i].texts[j].fontColor != ""
  {
    seq(|p.projects|, i requires 0 <= i < |p.projects| => AttachProject(p.projects[i], p.uid))
  }

  function AttachProject(pr: Project, puid: string): Project {
    pr.(portfolioUid := puid,
        works := Stamp(pr.works, pr.uid, StampWorkWithDefaults),
        texts := Stamp(pr.texts, pr.uid, StampTextWithDefaults))
  }

  function StampWorkWithDefaults(w: Work, uid: string): Work { WorkWithDefaults(StampWork(w, uid)) }
  function StampTextWithDefaults(t: Text, uid: string): Text { TextWithDefaults(StampText(t, uid)) }

  function ProjectRows(ps: seq<Project>): (r: seq<ProjectRow>)
    ensures |r| == |ps| && forall i :: 0 <= i < |ps| ==> r[i] == ProjectRowOf(ps[i])
  {
    seq(|ps|, i requires 0 <= i < |ps| => ProjectRowOf(ps[i]))
  }

  // ---------------------------------------------------------------------------
  // The save transaction (data/portfolio.go:231-262)
  // ---------------------------------------------------------------------------

  datatype Saved = Saved(db: Db, err: Option<StoreError>)

  /**
   * Whether a statement is issued at all: the works and texts statements are
   * skipped when there is nothing to insert, and so is the projects statement when
   * `guardProjects` holds.
   */
  predicate Issued(step: Step, p: Portfolio, guardProjects: bool) {
    match step
    case PortfolioStep => true
    case ProjectsStep => !guardProjects || |p.projects| > 0
    case WorksStep => |WorkRows(p.projects)| > 0
    case TextsStep => |TextRows(p.projects)| > 0
  }

  /** The database once every statement has been applied. */
  function Committed(db: Db, p: Portfolio): Db {
    db.(portfolios := Upsert(db.portfolios, PortfolioKey, PortfolioRowOf(p)),
        projects := UpsertAll(db.projects, ProjectKey, ProjectRows(Attached(p))),
        works := UpsertAll(db.works, WorkKey, WorkRows(p.projects)),
        texts := UpsertAll(db.texts, TextKey, TextRows(p.projects)))
  }

  /**
   * The transaction: the portfolio row, the project rows, the work rows and the
   * text rows are each upserted on their unique column; `failAt` names the
   * statement the database rejects, if any. Any failure rolls everything back.
   * Without `guardProjects`, an empty project list reaches gorm's `Create`, which
   * rejects an empty slice.
   */
  function RunSave(db: Db, p: Portfolio, failAt: Option<Step>, guardProjects: bool): (r: Saved)
    ensures r.err.Some? ==> r.db == db
    ensures r.err.None? <==>
      db.up && (guardProjects || |p.projects| > 0) &&
      (failAt.None? || !Issued(failAt.value, p, guardProjects))
    ensures r.err.None? ==> r.db == Committed(db, p)
  {
    if !db.up then Saved(db, Some(Unavailable))
    else match Rejection(p, failAt, guardProjects)
      case Some(e) => Saved(db, Some(e))
      case None => Saved(Committed(db, p), None)
  }

  /** The error of the first statement that fails, in statement order. */
  function Rejection(p: Portfolio, failAt: Option<Step>, guardProjects: bool): (r: Option<StoreError>)
    ensures r.None? <==> (guardProjects || |p.projects| > 0) && (failAt.None? || !Issued(failAt.value, p, guardProjects))
    ensures r.Some? && !(failAt == Some(PortfolioStep)) && !guardProjects && |p.projects| == 0 ==> r == Some(EmptySlice)
  {
    if failAt == Some(PortfolioStep) then Some(StepFailed(PortfolioStep))
    else if !guardProjects && |p.projects| == 0 then Some(EmptySlice)
    else if failAt.Some? && Issued(failAt.value, p, guardProjects) then Some(StepFailed(failAt.value))
    else None
  }

  /**
   * Whether the save commits: the database is up, the request has projects (the
   * projects statement is issued even for an empty list, and gorm's `Create`
   * rejects an empty slice), and no issued statement fails.
   */
  predicate SaveCommits(db: Db, p: Portfolio, failAt: Option<Step>) {
    db.up && |p.projects| > 0 && (failAt.None? || !Issued(failAt.value, p, false))
  }

  /**
   * `SavePortfolioToDB`: the four statements in one transaction, the projects
   * statement unguarded. All or nothing; a committed save stores the portfolio row
   * under its uid.
   */
  function SavePortfolioToDB(db: Db, p: Portfolio, failAt: Option<Step>): (r: Saved)
    ensures r.err.Some? ==> r.db == db
    ensures r.err.None? <==> SaveCommits(db, p, failAt)
    ensures db.up && |p.projects| == 0 && failAt != Some(PortfolioStep) ==> r.err == Some(EmptySlice)
    ensures r.err.None? ==> Lookup(r.db.portfolios, PortfolioKey, p.uid) == Some(PortfolioRowOf(p))
    ensures r.err.None? ==> Keys(r.db.portfolios, PortfolioKey) == Keys(db.portfolios, PortfolioKey) + {p.uid}
    ensures r.err.None? && p.uid in Keys(db.portfolios, PortfolioKey) ==> |r.db.portfolios| == |db.portfolios|
    ensures r.err.None? && p.uid !in Keys(db.portfolios, PortfolioKey) ==> |r.db.portfolios| == |db.portfolios| + 1
    ensures r.db.templates == db.templates && r.db.up == db.up
    ensures Consistent(db) ==> Consistent(r.db)
  {
    RunSave(db, p, failAt, false)
  }

  /** Whether the guarded save commits: the database is up and no issued statement fails. */
  predicate GuardedSaveCommits(db: Db, p: Portfolio, failAt: Option<Step>) {
    db.up && (failAt.None? || !Issued(failAt.value, p, true))
  }

  /** `SavePortfolioToDB` with the projects statement guarded like the other two. */
  function SavePortfolioToDBGuarded(db: Db, p: Portfolio, failAt: Option<Step>): (r: Saved)
    ensures r.err.Some? ==> r.db == db
    ensures r.err.None? <==> GuardedSaveCommits(db, p, failAt)
    ensures r.err.None? ==> r.db == Committed(db, p)
  {
    RunSave(db, p, failAt, true)
  }

  /** The guard changes nothing for a request that has projects. */
  lemma GuardedAgreesWithProjects(db: Db, p: Portfolio, failAt: Option<Step>)
    requires |p.projects| > 0
    ensures SavePortfolioToDBGuarded(db, p, failAt) == SavePortfolioToDB(db, p, failAt)
  {
  }

  /**
   * What a successful save leaves in each child table: a key the request mentions
   * holds the request's last row for it, and every other key holds what it held.
   */
  lemma SaveStoresGraph(db: Db, p: Portfolio, failAt: Option<Step>, k: string)
    requires SaveCommits(db, p, failAt)
    ensures var after := SavePortfolioToDB(db, p, failAt).db;
      var prs := ProjectRows(Attached(p));
      var ws := WorkRows(p.projects);
      var ts := TextRows(p.projects);
      Lookup(after.projects, ProjectKey, k)
        == (if LastWith(prs, ProjectKey, k).Some? then LastWith(prs, ProjectKey, k) else Lookup(db.projects, ProjectKey, k)) &&
      Lookup(after.works, WorkKey, k)
        == (if LastWith(ws, WorkKey, k).Some? then LastWith(ws, WorkKey, k) else Lookup(db.works, WorkKey, k)) &&
      Lookup(after.texts, TextKey, k)
        == (if LastWith(ts, TextKey, k).Some? then LastWith(ts, TextKey, k) else Lookup(db.texts, TextKey, k))
  {
    LookupAfterUpsertAll(db.projects, ProjectKey, ProjectRows(Attached(p)), k);
    LookupAfterUpsertAll(db.works, WorkKey, WorkRows(p.projects), k);
    LookupAfterUpsertAll(db.texts, TextKey, TextRows(p.projects), k);
  }

  /**
   * After a committed save, loading the portfolio by its uid lists every project of
   * the request, each as the request's last project with that uid, now owned by the
   * portfolio.
   */
  lemma SaveListsEveryProject(db: Db, p: Portfolio, failAt: Option<Step>, i: int)
    requires SaveCommits(db, p, failAt)
    requires 0 <= i < |p.projects|
    ensures var after := SavePortfolioToDB(db, p, failAt).db;
      var got := PortfolioByUid(after, p.uid);
      var last := LastWith(ProjectRows(Attached(p)), ProjectKey, p.projects[i].uid);
      got.Ok? && last.Some? && last.value.portfolioUid == p.uid &&
      LoadProject(after, last.value) in got.value.projects
  {
    var after := SavePortfolioToDB(db, p, failAt).db;
    var prs := ProjectRows(Attached(p));
    var k := p.projects[i].uid;
    assert ProjectKey(prs[i]) == k;
    assert k in Keys(prs, ProjectKey);
    var last := LastWith(prs, ProjectKey, k).value;
    var j :| 0 <= j < |prs| && prs[j] == last;
    assert last.portfolioUid == p.uid;
    SaveStoresGraph(db, p, failAt, k);
    LookupFindsKeys(after.projects, ProjectKey, k);
    assert last in after.projects;
    LookupFindsKeys(after.portfolios, PortfolioKey, p.uid);
    assert PortfolioByUid(after, p.uid) == Ok(LoadPortfolio(after, PortfolioRowOf(p)));
  }

  /** A work of the request is stored with the 1.0 default in place of a zero scale. */
  lemma SavedWorksHaveScale(db: Db, p: Portfolio, failAt: Option<Step>, ossKey: string)
    requires SaveCommits(db, p, failAt)
    requires ossKey in Keys(WorkRows(p.projects), WorkKey)
    ensures var stored := Lookup(SavePortfolioToDB(db, p, failAt).db.works, WorkKey, ossKey);
      stored.Some? && stored.value.scale != ZeroScale && stored.value.ossKey == ossKey
  {
    SaveStoresGraph(db, p, failAt, ossKey);
  }

  /**
   * Saving the same portfolio twice has the effect of saving it once: a save that
   * commits commits again and changes nothing more, and a save that fails fails
   * again the same way.
   */
  lemma SaveIsIdempotent(db: Db, p: Portfolio, failAt: Option<Step>)
    requires Consistent(db)
    ensures var once := SavePortfolioToDB(db, p, failAt);
      SavePortfolioToDB(once.db, p, failAt) == once
  {
    if SaveCommits(db, p, failAt) {
      var once := Committed(db, p);
      var row := PortfolioRowOf(p);
      UpsertIsSingleBatch(db.portfolios, PortfolioKey, row);
      UpsertIsSingleBatch(once.portfolios, PortfolioKey, row);
      UpsertAllIdempotent(db.portfolios, PortfolioKey, [row]);
      UpsertAllIdempotent(db.projects, ProjectKey, ProjectRows(Attached(p)));
      UpsertAllIdempotent(db.works, WorkKey, WorkRows(p.projects));
      UpsertAllIdempotent(db.texts, TextKey, TextRows(p.projects));
    }
  }

  /** Finding, as written: a portfolio without projects can never be saved. */
  lemma EmptyPortfolioRejected(db: Db, p: Portfolio)
    requires db.up && |p.projects| == 0
    ensures SavePortfolioToDB(db, p, None) == Saved(db, Some(EmptySlice))
  {
  }

  /** Finding, corrected: a portfolio without projects is saved like any other. */
  lemma EmptyPortfolioSaved(db: Db, p: Portfolio)
    requires db.up && |p.projects| == 0
    ensures var r := SavePortfolioToDBGuarded(db, p, None);
      r.err.None? && Lookup(r.db.portfolios, PortfolioKey, p.uid) == Some(PortfolioRowOf(p)) &&
      r.db.projects == db.projects && r.db.works == db.works && r.db.texts == db.texts
  {
    assert ProjectRows(Attached(p)) == [];
    assert WorkRows(p.projects) == [];
    assert TextRows(p.projects) == [];
  }

  // ---------------------------------------------------------------------------
  // Redis
  // ---------------------------------------------------------------------------

  /** `GetAllTemplatesFromRedis`. */
  function TemplatesFromRedis(c: Cache.Redis): Result<seq<Template>, Cache.CacheError> {
    Cache.ReadCached(c, Cache.TemplatesKey, Cache.DecodeTemplates)
  }

  /** `SaveAllTemplatesToRedis`. */
  function SaveTemplatesToRedis(c: Cache.Redis, ts: seq<Template>): Cache.Written {
    Cache.Set(c, Cache.TemplatesKey, Cache.EncodeTemplates(ts))
  }

  /** `GetPortfoliosFromRedis`. */
  function PortfoliosFromRedis(c: Cache.Redis, openid: string): Result<seq<Portfolio>, Cache.CacheError> {
    Cache.ReadCached(c, Cache.PortfoliosKey(openid), Cache.DecodePortfolios)
  }

  /** `SavePortfoliosToRedis`. */
  function SavePortfoliosToRedis(c: Cache.Redis, ps: seq<Portfolio>, openid: string): Cache.Written {
    Cache.Set(c, Cache.PortfoliosKey(openid), Cache.EncodePortfolios(ps))
  }

  /**
   * Storing a user's list makes it what that user reads back, leaves every other
   * user's list and the template list as they were, and fails only while Redis is down.
   */
  lemma PortfoliosRoundTrip(c: Cache.Redis, ps: seq<Portfolio>, openid: string, other: string)
    ensures var w := SavePortfoliosToRedis(c, ps, openid);
      (w.err.None? <==> c.up) &&
      (c.up ==> PortfoliosFromRedis(w.cache, openid) == Ok(ps)) &&
      (other != openid ==> PortfoliosFromRedis(w.cache, other) == PortfoliosFromRedis(c, other)) &&
      TemplatesFromRedis(w.cache) == TemplatesFromRedis(c)
  {
    Cache.PortfoliosKeysAreSeparate(openid, other);
  }

  /** Storing the template list makes it what is read back, and touches no user's list. */
  lemma TemplatesRoundTrip(c: Cache.Redis, ts: seq<Template>, openid: string)
    ensures var w := SaveTemplatesToRedis(c, ts);
      (w.err.None? <==> c.up) &&
      (c.up ==> TemplatesFromRedis(w.cache) == Ok(ts)) &&
      PortfoliosFromRedis(w.cache, openid) == PortfoliosFromRedis(c, openid)
  {
    Cache.PortfoliosKeysAreSeparate(openid, openid);
  }

  /** The sorted set that ranks templates by how many portfolios were created from them. */
  const HotKey: string := "zTemplates"

  /** The number of hot templates the endpoint means to return. */
  const HotCount: nat := 5

  function Ranked(c: Cache.Redis): Ranking.ZSet {
    if HotKey in c.zsets then c.zsets[HotKey] else []
  }

  /** Every sorted set is kept in Redis order. */
  ghost predicate WellFormed(c: Cache.Redis) {
    forall k :: k in c.zsets ==> Ranking.Sorted(c.zsets[k])
  }

  /** `IncreTemplateScore`: `ZINCRBY zTemplates 1 uid`. */
  function IncreTemplateScore(c: Cache.Redis, uid: string): (r: Cache.Written)
    ensures r.err.None? <==> c.up
    ensures !c.up ==> r.cache == c
    ensures c.up ==> Ranking.ScoreOf(Ranked(r.cache), uid) == Some(Ranking.ScoreOrZero(Ranked(c), uid) + 1)
    ensures forall m :: m != uid ==> Ranking.ScoreOf(Ranked(r.cache), m) == Ranking.ScoreOf(Ranked(c), m)
    ensures r.cache.strings == c.strings && r.cache.up == c.up
    ensures WellFormed(c) ==> WellFormed(r.cache)
  {
    if !c.up then Cache.Written(c, Some(Cache.Unreachable))
    else Cache.Written(c.(zsets := c.zsets[HotKey := Ranking.ZIncrBy(Ranked(c), uid, 1)]), None)
  }

  /**
   * `GetHotTemplatesFromRedis`: `ZRANGE zTemplates 0 5`, which lists up to six
   * members from rank 0, lowest score first. A missing key is an empty list.
   */
  function HotFromRedis(c: Cache.Redis): (r: Result<seq<string>, Cache.CacheError>)
    ensures r.Ok? <==> c.up
    ensures r.Ok? ==> |r.value| == Ranking.Min(HotCount + 1, |Ranked(c)|)
    ensures r.Ok? ==> forall k :: 0 <= k < |r.value| ==> r.value[k] == Ranked(c)[k].member
  {
    if !c.up then Err(Cache.Unreachable) else Ok(Ranking.Range(Ranked(c), 0, HotCount))
  }

  /**
   * `GetHotTemplatesFromRedis` as its comment intends: the five members of highest
   * score, highest first (`ZREVRANGE zTemplates 0 4`).
   */
  function HotFromRedisCorrected(c: Cache.Redis): (r: Result<seq<string>, Cache.CacheError>)
    ensures r.Ok? <==> c.up
    ensures r.Ok? ==> |r.value| == Ranking.Min(HotCount, |Ranked(c)|)
    ensures r.Ok? ==> forall k :: 0 <= k < |r.value| ==> r.value[k] == Ranked(c)[|Ranked(c)| - 1 - k].member
  {
    if !c.up then Err(Cache.Unreachable) else Ok(Ranking.Top(Ranked(c), HotCount))
  }

  /**
   * In a well-formed cache the query as written returns the coldest templates, in
   * ascending order: no member it leaves out scores less than a member it returns.
   */
  lemma HotFromRedisIsColdest(c: Cache.Redis)
    requires WellFormed(c) && c.up
    ensures var z := Ranked(c);
      var n := |HotFromRedis(c).value|;
      (forall k, l :: 0 <= k < l < n ==> z[k].score <= z[l].score) &&
      (forall k, j :: 0 <= k < n <= j < |z| ==> z[k].score <= z[j].score)
  {
    if HotKey in c.zsets {
      assert Ranking.Sorted(c.zsets[HotKey]);
    }
    Ranking.RangeFromZeroIsColdest(Ranked(c), HotCount);
  }

  /**
   * In a well-formed cache the corrected query returns the hottest templates: no
   * member it leaves out scores more than any member it returns.
   */
  lemma HotCorrectedIsHottest(c: Cache.Redis)
    requires WellFormed(c) && c.up
    ensures var z := Ranked(c);
      var cut := |z| - |HotFromRedisCorrected(c).value|;
      forall i, j :: 0 <= j < cut <= i < |z| ==> z[j].score <= z[i].score
  {
    if HotKey in c.zsets {
      assert Ranking.Sorted(c.zsets[HotKey]);
    }
    Ranking.TopIsHottest(Ranked(c), HotCount);
  }

  /** Seven templates used once through seven times. */
  function SevenRanked(): Ranking.ZSet {
    [Ranking.Entry("a", 1), Ranking.Entry("b", 2), Ranking.Entry("c", 3), Ranking.Entry("d", 4),
     Ranking.Entry("e", 5), Ranking.Entry("f", 6), Ranking.Entry("g", 7)]
  }

  /**
   * Finding, as written: with seven ranked templates the query returns six, starting
   * from the least used, and leaves out the most used one.
   */
  lemma HotAsWrittenMissesHottest()
    ensures var c := Cache.Redis(map[], map[HotKey := SevenRanked()], true);
      HotFromRedis(c) == Ok(["a", "b", "c", "d", "e", "f"]) &&
      "g" !in HotFromRedis(c).value
  {
    var c := Cache.Redis(map[], map[HotKey := SevenRanked()], true);
    assert Ranked(c) == SevenRanked();
    var r := HotFromRedis(c).value;
    assert r == ["a", "b", "c", "d", "e", "f"];
  }

  /** Finding, corrected: the same set gives the five most used, most used first. */
  lemma HotCorrectedFindsHottest()
    ensures var c := Cache.Redis(map[], map[HotKey := SevenRanked()], true);
      HotFromRedisCorrected(c) == Ok(["g", "f", "e", "d", "c"])
  {
    var c := Cache.Redis(map[], map[HotKey := SevenRanked()], true);
    assert Ranked(c) == SevenRanked();
    var r := HotFromRedisCorrected(c).value;
    assert r == ["g", "f", "e", "d", "c"];
  }

  /** `GetHotTemplatesFromDB`: not implemented; it answers an empty list and no error. */
  function HotFromDB(db: Db): (r: Result<seq<Template>, StoreError>)
    ensures r == Ok([])
  {
    Ok([])
  }
}
