/**
 * Two client runs of the screen, proved from the contracts alone: a pull request
 * that loads and is browsed, and a fetch that fails and is retried.
 */
module Scenarios {
  import opened Wrappers
  import opened PullRequestData
  import Render
  import StateColor
  import Screen
  import Titles

  function Commit(n: string): CommitNode {
    CommitNode(CommitRef("c" + n, "oid" + n, "message " + n))
  }

  /**
   * acme/widgets#42, open, with three comments and five commits: mounting fetches
   * it once, the spinner shows while loading, then the pager with titles
   * "Overview" and "5", a green badge and the comments in order; the modal opens
   * and closes without a call, and pressing the third commit asks for that commit.
   */
  method LoadAndBrowse() returns (trace: seq<Screen.Request>)
    ensures trace == [
      Screen.Fetch("acme", "widgets", 42),
      Screen.ShowCommit("acme", "widgets", "oid3")]
  {
    var params := NavParams("acme", "widgets", 42);
    var screen := new Screen.PullRequestScreen(params, ScreenState(false, None, None));
    screen.ComponentWillMount();
    screen.ReceiveState(ScreenState(true, None, None));
    var shown := screen.Draw();
    assert shown == Success(Render.Spinner);

    var comments := [Comment("1", "ann", "a"), Comment("2", "bob", "b"), Comment("3", "cy", "c")];
    var commits := [Commit("1"), Commit("2"), Commit("3"), Commit("4"), Commit("5")];
    var pr := PullRequest("Fix", "Body", "open", comments, commits);
    StateColor.OpenAnyCase();
    screen.ReceiveState(ScreenState(false, None, Some(pr)));
    shown := screen.Draw();
    Render.PagerShowsResource(screen.props);
    assert shown.value.titles == ["Overview", "5"];
    assert shown.value.pages[0].badgeColor == StateColor.OpenColor;
    assert shown.value.pages[0].comments == comments;

    screen.PressClosePr();
    assert screen.modalVisible;
    screen.PressMerge();
    assert !screen.modalVisible;

    assert Titles.RenderTitle(1, shown.value.titles[1], screen.props.pullRequest) == Titles.Counted("Commits", 5);
    assert |shown.value.pages[1].rows| == 5;
    assert shown.value.pages[1].rows[2] == commits[2].commit;
    screen.PressCommit(2);
    assert commits[2].commit.oid == "oid3";
    trace := screen.requests;
  }

  /** A failed fetch shows the error view; retrying sends the same parameters again. */
  method FailAndRetry() returns (trace: seq<Screen.Request>)
    ensures trace == [
      Screen.Fetch("acme", "widgets", 42),
      Screen.Fetch("acme", "widgets", 42)]
  {
    var params := NavParams("acme", "widgets", 42);
    var screen := new Screen.PullRequestScreen(params, ScreenState(false, None, None));
    screen.ComponentWillMount();
    screen.ReceiveState(ScreenState(false, Some("Network request failed"), None));
    var shown := screen.Draw();
    assert shown == Success(Render.ErrorView("Network request failed", true));
    screen.PressRetry();
    trace := screen.requests;
  }
}
