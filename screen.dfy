/**
 * The pull-request screen component: its local `modalVisible` state and the
 * requests it sends to the store's actions on mount, on retry and when a commit
 * row is pressed. The store slice it is connected to arrives from outside.
 */
module Screen {
  import opened Wrappers
  import opened PullRequestData
  import Render

  /** An action call made by the screen: fetch a pull request, or open one commit. */
  datatype Request =
    | Fetch(owner: string, repo: string, number: int)
    | ShowCommit(owner: string, repo: string, oid: string)

  /** The fetch request for the given navigation parameters, passed on unchanged. */
  function FetchFor(params: NavParams): Request {
    Fetch(params.owner, params.repo, params.number)
  }

  /** Whether the current store slice renders the pager (so its buttons and rows exist). */
  predicate ShowsPager(s: ScreenState) {
    Render.Render(s).Success? && Render.Render(s).value.Pager?
  }

  /** Whether the current store slice renders the error view (so its retry affordance exists). */
  predicate ShowsError(s: ScreenState) {
    Render.Render(s).Success? && Render.Render(s).value.ErrorView?
  }

  class PullRequestScreen {
    /** The navigation parameters the screen was opened with. */
    const params: NavParams
    /** The connected store slice (`this.props.state`). */
    var props: ScreenState
    /** The confirmation modal's visibility (`this.state.modalVisible`). */
    var modalVisible: bool
    /** Every action call the screen has made, oldest first. */
    var requests: seq<Request>

    /**
     * Every call carries the screen's own owner and repository, and every fetch
     * carries its number as well: nothing the screen sends is about another pull request.
     */
    predicate Valid()
      reads this
    {
      forall i :: 0 <= i < |requests| ==>
        && requests[i].owner == params.owner
        && requests[i].repo == params.repo
        && (requests[i].Fetch? ==> requests[i].number == params.number)
    }

    /** A fresh component: the modal starts hidden and nothing has been requested. */
    constructor (params: NavParams, props: ScreenState)
      ensures Valid()
      ensures this.params == params && this.props == props
      ensures !modalVisible && requests == []
    {
      this.params := params;
      this.props := props;
      modalVisible := false;
      requests := [];
    }

    /** Asks the store to fetch the pull request named by the navigation parameters. */
    method FetchPullRequest()
      requires Valid()
      modifies this`requests
      ensures Valid()
      ensures requests == old(requests) + [FetchFor(params)]
    {
      requests := requests + [FetchFor(params)];
    }

    /** Mounting fetches exactly once. */
    method ComponentWillMount()
      requires Valid()
      modifies this`requests
      ensures Valid()
      ensures requests == old(requests) + [FetchFor(params)]
    {
      FetchPullRequest();
    }

    /** The store delivers a new slice (loading started, an error, or a fetched pull request). */
    method ReceiveState(s: ScreenState)
      requires Valid()
      modifies this`props
      ensures Valid()
      ensures props == s
    {
      props := s;
    }

    /** Changes the modal's visibility and nothing else. */
    method SetModalVisible(visible: bool)
      requires Valid()
      modifies this`modalVisible
      ensures Valid()
      ensures modalVisible == visible
    {
      modalVisible := visible;
    }

    /**
     * The component's `render()`: the link from the class to the render
     * decision, which is defined once, as `Render.Render` on the connected
     * store slice; it changes nothing.
     */
    method Draw() returns (r: Result<Render.Phase>)
      ensures r == Render.Render(props)
    {
      r := Render.Render(props);
    }

    /** The error view's retry: one more fetch with the same parameters; the modal is left as it was. */
    method PressRetry()
      requires Valid() && ShowsError(props)
      modifies this`requests
      ensures Valid()
      ensures requests == old(requests) + [FetchFor(params)]
      ensures modalVisible == old(modalVisible)
    {
      FetchPullRequest();
    }

    /** The overview's "Close PR" button opens the confirmation modal and calls nothing. */
    method PressClosePr()
      requires Valid() && ShowsPager(props)
      modifies this`modalVisible
      ensures Valid()
      ensures modalVisible
      ensures requests == old(requests)
    {
      SetModalVisible(true);
    }

    /** The modal's "Merge" button only hides the modal: no merge or close call is made. */
    method PressMerge()
      requires Valid() && ShowsPager(props) && modalVisible
      modifies this`modalVisible
      ensures Valid()
      ensures !modalVisible
      ensures requests == old(requests)
    {
      SetModalVisible(false);
    }

    /**
     * Pressing row `i` of the commit list asks to show that commit, with the
     * screen's owner and repository and the row's own oid.
     */
    method PressCommit(i: nat)
      requires Valid() && ShowsPager(props)
      requires i < |Render.Render(props).value.pages[1].rows|
      modifies this`requests
      ensures Valid()
      ensures var pr := props.pullRequest.value;
              && i < |pr.commits|
              && requests == old(requests) + [ShowCommit(params.owner, params.repo, pr.commits[i].commit.oid)]
    {
      Render.PagerShowsResource(props);
      var item := Render.Render(props).value.pages[1].rows[i];
      requests := requests + [ShowCommit(params.owner, params.repo, item.oid)];
    }
  }
}
