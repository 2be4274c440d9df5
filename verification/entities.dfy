/**
 * The records the server stores and exchanges (server/internal/data/portfolio.go,
 * feedback.go and auth.go). Database row ids and the CreatedAt/UpdatedAt columns
 * that the ORM fills in are not carried.
 */
module Entities {

  /** A float64 column carried opaquely as its IEEE-754 bit pattern. */
  datatype Scale = Scale(bits: nat)

  /** +0.0, the Go zero value of a float64. */
  const ZeroScale: Scale := Scale(0)

  /** 1.0, the column default of `Work.Scale` ("no scaling"). */
  const UnitScale: Scale := Scale(0x3ff0_0000_0000_0000)

  /** A fixed page of a template; `bleed` holds the svg x, y, width and height. */
  datatype Page = Page(
    uid: string,
    ossKey: string,
    previewOssKey: string,
    bleed: seq<string>,
    templateUid: string,
    marginTop: string,
    marginLeft: string,
    size: string,
    bkgSize: string,
    isContentPage: bool)

  datatype Template = Template(uid: string, name: string, fontOssKey: string, pages: seq<Page>)

  /** The Go zero value of a Template, what a lookup that found no row leaves behind. */
  const ZeroTemplate: Template := Template("", "", "", [])

  /** A placed media item; its row is keyed by `ossKey`. */
  datatype Work = Work(
    ossKey: string,
    projectUid: string,
    size: string,
    marginTop: string,
    marginLeft: string,
    scale: Scale,
    pageNum: int)

  /** A placed text box; its row is keyed by `uid`. */
  datatype Text = Text(
    uid: string,
    projectUid: string,
    content: string,
    fontSize: string,
    fontColor: string,
    size: string,
    marginTop: string,
    marginLeft: string,
    pageNum: int)

  datatype Project = Project(
    uid: string,
    name: string,
    order: int,
    portfolioUid: string,
    works: seq<Work>,
    texts: seq<Text>)

  datatype Portfolio = Portfolio(
    uid: string,
    openid: string,
    title: string,
    projects: seq<Project>,
    templateUid: string,
    template: Template)

  /** The columns of the `portfolios` table. */
  datatype PortfolioRow = PortfolioRow(uid: string, openid: string, title: string, templateUid: string)

  /** The columns of the `projects` table. */
  datatype ProjectRow = ProjectRow(uid: string, name: string, order: int, portfolioUid: string)

  function PortfolioRowOf(p: Portfolio): PortfolioRow {
    PortfolioRow(p.uid, p.openid, p.title, p.templateUid)
  }

  function ProjectRowOf(p: Project): ProjectRow {
    ProjectRow(p.uid, p.name, p.order, p.portfolioUid)
  }

  /** A user feedback entry; `uid` is not a unique column. */
  datatype Feedback = Feedback(uid: string, content: string, timestamp: int, status: int)

  /** An account of the app's own username/password login. */
  datatype AppUser = AppUser(username: string, password: string, openid: string)
}
