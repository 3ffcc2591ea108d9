/**
 * The data the screen receives: the navigation parameters naming one pull
 * request, and the store slice holding the fetch lifecycle and the fetched
 * pull request.
 */
module PullRequestData {
  import opened Wrappers

  /** The navigation parameters identifying the pull request to show. */
  datatype NavParams = NavParams(owner: string, repo: string, number: int)

  datatype Comment = Comment(id: string, author: string, body: string)

  /** A commit as the commit list shows it; `oid` is the hash used to open it. */
  datatype CommitRef = CommitRef(id: string, oid: string, message: string)

  /** One entry of `commits.nodes`: a wrapper around the commit itself. */
  datatype CommitNode = CommitNode(commit: CommitRef)

  /** The fetched pull request; `comments` and `commits` are the `nodes` lists, in server order. */
  datatype PullRequest = PullRequest(
    title: string,
    body: string,
    state: string,
    comments: seq<Comment>,
    commits: seq<CommitNode>)

  /**
   * The store slice the screen is connected to. `error` is None for every falsy
   * value and otherwise carries the cause; `pullRequest` is None while nothing
   * has been fetched.
   */
  datatype ScreenState = ScreenState(
    loading: bool,
    error: Option<string>,
    pullRequest: Option<PullRequest>)
}
