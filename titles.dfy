/**
 * The two tab titles of the pager: the strings given to the title indicator,
 * and how each title is drawn.
 */
module Titles {
  import opened Wrappers
  import opened PullRequestData
  import Decimal

  /** The index of the commits tab in the pager. */
  const TitleCommitsIndex := 1

  /** The number of commits shown for an optional pull request; none when absent. */
  function CommitCount(pr: Option<PullRequest>): nat {
    if pr.Some? then |pr.value.commits| else 0
  }

  /**
   * The tab-strip titles: always two, "Overview" first; the second is the
   * decimal text of the commit count, which is "0" while no pull request is loaded.
   */
  function GetTitles(pr: Option<PullRequest>): (titles: seq<string>)
    ensures |titles| == 2 && titles[0] == "Overview"
    ensures Decimal.IsCanonical(titles[1]) && Decimal.Value(titles[1]) == CommitCount(pr)
  {
    assert Decimal.Value("0") == 0;
    ["Overview", if pr.Some? then Decimal.ToDecimal(|pr.value.commits|) else "0"]
  }

  /** How one tab title is drawn: the title as given, or the label "Commits" beside a count badge. */
  datatype TitleView = Plain(text: string) | Counted(caption: string, badge: nat)

  /**
   * The title renderer: the compound "Commits" form with the commit count exactly
   * for the commits tab when a pull request is present, the given title otherwise.
   */
  function RenderTitle(index: int, title: string, pr: Option<PullRequest>): (v: TitleView)
    ensures v.Counted? <==> index == TitleCommitsIndex && pr.Some?
    ensures v.Plain? ==> v.text == title
    ensures v.Counted? ==> v.caption == "Commits" && v.badge == CommitCount(pr)
  {
    if index == TitleCommitsIndex && pr.Some? then
      Counted("Commits", |pr.value.commits|)
    else
      Plain(title)
  }

  /**
   * The two title representations of the commits tab agree: drawing the strip's
   * titles, the overview tab shows "Overview", and the commits tab shows either
   * the strip's own text or a badge whose decimal text is that same text.
   */
  lemma RenderedTitlesAgree(pr: Option<PullRequest>, index: nat)
    requires index < 2
    ensures var titles := GetTitles(pr);
            var v := RenderTitle(index, titles[index], pr);
            (index == 0 ==> v == Plain("Overview")) &&
            (v.Plain? ==> v.text == titles[index]) &&
            (v.Counted? ==> Decimal.ToDecimal(v.badge) == titles[1])
  {
  }

  /** With no pull request loaded the strip reads "Overview" and "0", and both are drawn as given. */
  lemma TitlesBeforeLoad(index: nat)
    requires index < 2
    ensures GetTitles(None) == ["Overview", "0"]
    ensures RenderTitle(index, GetTitles(None)[index], None) == Plain(GetTitles(None)[index])
  {
  }
}
