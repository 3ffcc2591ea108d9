/**
 * What the screen draws for a store slice: a spinner, an error view with a
 * retry affordance, nothing, or a two-page pager (overview, then commits).
 */
module Render {
  import opened Wrappers
  import opened PullRequestData
  import StateColor
  import Titles
  import Decimal

  /** The content of one pager page. */
  datatype Page =
    | Overview(title: string, badgeText: string, badgeColor: string, body: string, comments: seq<Comment>)
    | Commits(rows: seq<CommitRef>)

  /** The phase the screen is in, with what that phase shows. */
  datatype Phase =
    | Spinner
    | ErrorView(error: string, refreshable: bool)
    | NoContent
    | Pager(titles: seq<string>, pages: seq<Page>)

  /** The rows of the commit list: each node's commit, in the nodes' order. */
  function CommitRows(nodes: seq<CommitNode>): (rows: seq<CommitRef>)
    ensures |rows| == |nodes|
    ensures forall i :: 0 <= i < |nodes| ==> rows[i] == nodes[i].commit
  {
    if nodes == [] then [] else [nodes[0].commit] + CommitRows(nodes[1..])
  }

  /**
   * The overview page: title, a badge with the state and its colour, the body
   * and the comments in server order. It throws exactly when the state has no colour.
   */
  function RenderOverview(pr: PullRequest): (r: Result<Page>)
    ensures r.Success? <==> StateColor.GetStateColor(pr.state).Success?
    ensures r.Failure? ==> r.error == StateColor.GetStateColor(pr.state).error
    ensures r.Success? ==>
      r.value == Overview(pr.title, pr.state, StateColor.GetStateColor(pr.state).value, pr.body, pr.comments)
  {
    match StateColor.GetStateColor(pr.state)
    case Success(color) => Success(Overview(pr.title, pr.state, color, pr.body, pr.comments))
    case Failure(e) => Failure(e)
  }

  /**
   * The render decision, in fixed precedence: loading shows only a spinner,
   * whatever else is set; otherwise an error shows the error view with retry;
   * otherwise a missing pull request shows nothing; otherwise the pager with the
   * strip titles, the overview page and the commits page. Both pages are built
   * while rendering, so an unknown state makes the whole render throw.
   */
  function Render(s: ScreenState): (r: Result<Phase>)
    ensures s.loading ==> r == Success(Spinner)
    ensures !s.loading && s.error.Some? ==> r == Success(ErrorView(s.error.value, true))
    ensures !s.loading && s.error.None? && s.pullRequest.None? ==> r == Success(NoContent)
    ensures !s.loading && s.error.None? && s.pullRequest.Some? ==>
      var pr := s.pullRequest.value;
      && (r.Success? <==> StateColor.GetStateColor(pr.state).Success?)
      && (r.Failure? ==> r.error == "Unknown state: " + pr.state)
      && (r.Success? ==>
            && r.value.Pager?
            && r.value.titles == Titles.GetTitles(s.pullRequest)
            && r.value.pages == [RenderOverview(pr).value, Commits(CommitRows(pr.commits))])
  {
    if s.loading then Success(Spinner)
    else if s.error.Some? then Success(ErrorView(s.error.value, true))
    else if s.pullRequest.None? then Success(NoContent)
    else
      var pr := s.pullRequest.value;
      match RenderOverview(pr)
      case Failure(e) => Failure(e)
      case Success(overview) =>
        Success(Pager(Titles.GetTitles(s.pullRequest), [overview, Commits(CommitRows(pr.commits))]))
  }

  /** The screen throws only when it is about to show a pull request whose state has no colour. */
  lemma RenderThrowsOnlyOnUnknownState(s: ScreenState)
    ensures Render(s).Failure? <==>
      !s.loading && s.error.None? && s.pullRequest.Some? &&
      StateColor.ToLower(s.pullRequest.value.state) !in StateColor.Palette
  {
  }

  /**
   * A shown pager always has exactly two pages, overview then commits, and its
   * second title is the decimal count of the commit rows, which list every
   * commit of the pull request in order.
   */
  lemma PagerShowsResource(s: ScreenState)
    requires Render(s).Success? && Render(s).value.Pager?
    ensures s.pullRequest.Some?
    ensures var p := Render(s).value;
            && |p.titles| == 2 && |p.pages| == 2
            && p.pages[0].Overview? && p.pages[0].comments == s.pullRequest.value.comments
            && p.pages[1].Commits?
            && p.titles[1] == Titles.GetTitles(s.pullRequest)[1]
            && p.pages[1].rows == CommitRows(s.pullRequest.value.commits)
            && Decimal.ToDecimal(|p.pages[1].rows|) == p.titles[1]
  {
  }
}
