# Pull-request screen view-state model

A Dafny model of the view-state core of the mobile GitHub client's pull-request screen
(`RepositoryPullRequestScreen`). Under its React Native rendering the screen makes a
few exact decisions, and the model states and proves them:

- **State colour** (`StateColor`). The pull request's state is lower-cased and looked
  up among `open` (`#2cbe4e`), `merged` (`#6f42c1`) and `closed` (`#cb2431`). Any
  other state throws `Unknown state: <state>`, with no default colour. A thrown
  error is modelled as `Result.Failure` carrying the message.
- **Tab titles** (`Titles`). The tab strip always has two titles. The first is
  `"Overview"`. The second is the decimal commit count, or `"0"` while no pull
  request is loaded. The title renderer draws the compound "Commits" + count-badge
  form only for index 1 when a pull request is present. Otherwise it draws the given
  title. `Decimal` models how JavaScript writes an array length (a non-negative
  integer below 2^32) as text. It proves that this text and the count determine
  each other.
- **Render phase** (`Render`). The fixed precedence of `render()` is: `loading` →
  spinner; else `error` → error view with retry; else no pull request → nothing;
  else a pager with the overview page and then the commits page. Both pages are
  built while rendering. So a pull request whose state has no colour makes the
  whole render throw.
- **Component state and outbound calls** (`Screen`). This is a class holding the
  navigation parameters, the connected store slice, `modalVisible`, and the trace
  of action calls made. Mount and retry each add one `Fetch(owner,
  repo, number)` with the parameters unchanged. A commit press adds one
  `ShowCommit(owner, repo, oid)` with that row's oid. The "Close PR"
  button shows the modal. "Merge" only hides it and makes no call. The object
  invariant `Valid()` says that every call carries the screen's own owner and
  repository, and that every fetch also carries its own number.
- **Scenarios** (`Scenarios`). Two client runs proved from the contracts alone. In
  the first, acme/widgets#42 loads with five commits and is browsed. In the second,
  a failed fetch is retried.

What the screen does not do, and so the model does not do either:

- It does not ignore late fetch responses: it keeps no record of which fetch is
  the latest, and whatever the store holds is drawn.
- The modal is not reset on mount or retry.
- The "Merge" button calls nothing: it only hides the modal.
- It does not confine an unknown state to the badge. The whole `render()` throws,
  because `renderOverView` is evaluated eagerly inside `render()`.

JavaScript truthiness is modelled as follows. `error` is `None` for every falsy
value, and `Some(cause)` otherwise. `pullRequest` is `None` when absent.

## Model

| member | source | states |
|---|---|---|
| `Decimal.ToDecimal` | containers/RepositoryPullRequestScreen/RepositoryPullRequestScreen.js:96 | the text written for a count is a canonical digit string (no leading zero except "0") whose value is that count |
| `Decimal.ToDecimalOfValue` | containers/RepositoryPullRequestScreen/RepositoryPullRequestScreen.js:96 | every canonical digit string is the text written for the number it denotes, so count and text determine each other |
| `StateColor.ToLower` | containers/RepositoryPullRequestScreen/RepositoryPullRequestScreen.js:36 | lower-casing keeps the length and lower-cases every character in place |
| `StateColor.GetStateColor` | containers/RepositoryPullRequestScreen/RepositoryPullRequestScreen.js:35-46 | succeeds exactly when the lower-cased state is a key of the open/merged/closed palette, and then gives that key's colour; otherwise it throws "Unknown state: " followed by the state as given |
| `StateColor.StateColorRoundTrip` | containers/RepositoryPullRequestScreen/RepositoryPullRequestScreen.js:37-42 | the three colours are distinct: a successful colour maps back to the lower-cased state |
| `StateColor.CaseInsensitive` | containers/RepositoryPullRequestScreen/RepositoryPullRequestScreen.js:36 | two states equal up to letter case get the same outcome and the same colour |
| `StateColor.LowerFirstSameColor` | containers/RepositoryPullRequestScreen/RepositoryPullRequestScreen.js:36 | lower-casing a state before the lookup changes neither the outcome nor the colour |
| `StateColor.OpenAnyCase` | containers/RepositoryPullRequestScreen/RepositoryPullRequestScreen.js:36-38 | "open", "OPEN" and "Open" all give `#2cbe4e` |
| `StateColor.MergedClosedAnyCase` | containers/RepositoryPullRequestScreen/RepositoryPullRequestScreen.js:39-42 | "MERGED" gives `#6f42c1` and "Closed" gives `#cb2431` |
| `StateColor.LengthMismatchThrows` | containers/RepositoryPullRequestScreen/RepositoryPullRequestScreen.js:43-44 | a state whose length matches no key throws, naming the state |
| `StateColor.UnknownStateThrows` | containers/RepositoryPullRequestScreen/RepositoryPullRequestScreen.js:43-44 | "frobnicated" throws "Unknown state: frobnicated" instead of getting a default colour |
| `Titles.GetTitles` | containers/RepositoryPullRequestScreen/RepositoryPullRequestScreen.js:90-98 | always two titles, "Overview" first; the second is canonical decimal text whose value is the commit count, 0 when no pull request is loaded |
| `Titles.RenderTitle` | containers/RepositoryPullRequestScreen/RepositoryPullRequestScreen.js:67-88 | the compound "Commits" + badge form is drawn if and only if the index is 1 and a pull request is present, with the badge equal to the commit count; otherwise the given title is drawn unchanged |
| `Titles.RenderedTitlesAgree` | containers/RepositoryPullRequestScreen/RepositoryPullRequestScreen.js:67-98 | drawing the strip's own titles, the overview tab shows "Overview", and the commits tab shows either the strip text or a badge whose decimal text equals the strip text |
| `Titles.TitlesBeforeLoad` | containers/RepositoryPullRequestScreen/RepositoryPullRequestScreen.js:95-96 | with no pull request the strip reads "Overview", "0" and both are drawn as given |
| `Render.CommitRows` | containers/RepositoryPullRequestScreen/RepositoryPullRequestScreen.js:169-184 | the commit list has one row per node, each the node's commit, in the nodes' order |
| `Render.RenderOverview` | containers/RepositoryPullRequestScreen/RepositoryPullRequestScreen.js:104-154 | the overview shows the title, a badge with the state and its colour, the body and the comments in server order; it throws exactly when the state has no colour |
| `Render.Render` | containers/RepositoryPullRequestScreen/RepositoryPullRequestScreen.js:189-232 | loading gives the spinner whatever else is set; otherwise an error gives the refreshable error view with that error; otherwise no pull request gives nothing; otherwise the pager with the strip titles, the overview page and the commits page, or the state-colour error |
| `Render.RenderThrowsOnlyOnUnknownState` | containers/RepositoryPullRequestScreen/RepositoryPullRequestScreen.js:189-232 | rendering throws if and only if it is about to show a pull request whose lower-cased state is not a palette key |
| `Render.PagerShowsResource` | containers/RepositoryPullRequestScreen/RepositoryPullRequestScreen.js:216-232 | a shown pager has a pull request behind it, two titles and two pages (overview with the comments, then the commit rows), and its second title is the decimal count of the commit rows |
| `Screen.PullRequestScreen.constructor` | containers/RepositoryPullRequestScreen/RepositoryPullRequestScreen.js:49-51 | the modal starts hidden and no call has been made |
| `Screen.PullRequestScreen.FetchPullRequest` | containers/RepositoryPullRequestScreen/RepositoryPullRequestScreen.js:57-65 | appends exactly one fetch call carrying the navigation owner, repo and number unchanged |
| `Screen.PullRequestScreen.ComponentWillMount` | containers/RepositoryPullRequestScreen/RepositoryPullRequestScreen.js:53-55 | mounting makes exactly one fetch call with the navigation parameters |
| `Screen.PullRequestScreen.ReceiveState` | containers/RepositoryPullRequestScreen/RepositoryPullRequestScreen.js:327-335 | the connected store slice is replaced; the modal and the calls made are untouched |
| `Screen.PullRequestScreen.SetModalVisible` | containers/RepositoryPullRequestScreen/RepositoryPullRequestScreen.js:100-102 | sets `modalVisible` to the argument and changes nothing else |
| `Screen.PullRequestScreen.Draw` | containers/RepositoryPullRequestScreen/RepositoryPullRequestScreen.js:189-232 | what is drawn is the render decision on the current store slice; nothing changes |
| `Screen.PullRequestScreen.PressRetry` | containers/RepositoryPullRequestScreen/RepositoryPullRequestScreen.js:200-210 | from the error view, retry appends one fetch call with the same parameters and leaves the modal as it was |
| `Screen.PullRequestScreen.PressClosePr` | containers/RepositoryPullRequestScreen/RepositoryPullRequestScreen.js:117-122 | the "Close PR" button shows the modal and makes no call |
| `Screen.PullRequestScreen.PressMerge` | containers/RepositoryPullRequestScreen/RepositoryPullRequestScreen.js:123-135 | the modal's "Merge" button hides the modal and makes no call |
| `Screen.PullRequestScreen.PressCommit` | containers/RepositoryPullRequestScreen/RepositoryPullRequestScreen.js:156-184 | pressing commit row i appends exactly one show-commit call with the screen's owner and repo and the oid of the pull request's i-th commit |
| `Scenarios.LoadAndBrowse` | containers/RepositoryPullRequestScreen/RepositoryPullRequestScreen.js:53-232 | mount, load, open and dismiss the modal, then press the third commit; the commits tab is drawn as "Commits" with badge 5 over five rows: the calls made are one fetch of acme/widgets#42 and one show-commit of that commit's oid |
| `Scenarios.FailAndRetry` | containers/RepositoryPullRequestScreen/RepositoryPullRequestScreen.js:53-65 | mount, fail, retry: the calls made are two identical fetches of acme/widgets#42 |

## Left out

- `StateColor.ToLower`: models only ASCII lower-casing, not the full Unicode `toLowerCase`. A non-ASCII character is kept as it is. Some non-ASCII characters do lower-case to ASCII text: U+212A KELVIN SIGN becomes "k", and U+0130 becomes "i" followed by U+0307. The lookup outcome is still unaffected, because no non-ASCII character lower-cases to a letter of "open", "merged" or "closed".
- `Decimal.ToDecimal`: models the decimal text of an unbounded natural number. JavaScript writes numbers of 10^21 and above in exponent form, and is not exact above 2^53. Neither case arises for the array lengths (below 2^32) that the screen writes.
- `Screen.PullRequestScreen.FetchPullRequest`, `Screen.PullRequestScreen.PressRetry`, `Screen.PullRequestScreen.PressCommit`: the `navigation` prop is treated as fixed for the screen's lifetime. The component reads `this.props.navigation.params` again at every call, and `connect` maps `navigation` from the store, so a store change could in principle give a later call other parameters. `ReceiveState` replaces only the `state` slice. So `Valid()`, and "retry sends the same parameters", rest on the parameters never changing.
- Stale fetch responses: the code has no generation tokens and ignores nothing, so none is modelled.
- The reducer that sets `loading`, `error` and `pullRequest`, and the asynchronous fetch itself: both are store and network code. The model receives each new store slice through `ReceiveState`. The actions `fetchPullRequest` and `showRepositoryCommit` are modelled only as calls recorded in `requests`.
- Merge or close of the pull request: the "Merge" button makes no call in the code, so none is modelled.
- Layout, styles, `normalizeFont`, the reaction group, comment and commit row components, `Blank`, list keys and separators: these are presentation with no decisions. The `Button` and `ImageButton` components are also presentation.
- Which tab the pager has selected: this lives in the third-party pager widget. `RenderTitle` takes the index as a parameter.
- The action failure policy and any notification: the code has neither.
