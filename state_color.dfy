/**
 * The badge colour of a pull request's state: the state text is lower-cased and
 * looked up among three fixed keys; any other state is an error, never a default.
 */
module StateColor {
  import opened Wrappers

  const OpenColor := "#2cbe4e"
  const MergedColor := "#6f42c1"
  const ClosedColor := "#cb2431"

  /** The reference table the switch implements: lower-cased state to colour. */
  const Palette: map<string, string> :=
    map["open" := OpenColor, "merged" := MergedColor, "closed" := ClosedColor]

  /** ASCII lower-casing of one character; every other character is kept. */
  function LowerChar(c: char): char {
    if 'A' <= c <= 'Z' then (c as int + 32) as char else c
  }

  /** `toLowerCase`, restricted to ASCII letters. */
  function ToLower(s: string): (r: string)
    ensures |r| == |s|
    ensures forall i :: 0 <= i < |s| ==> r[i] == LowerChar(s[i])
  {
    if s == [] then [] else [LowerChar(s[0])] + ToLower(s[1..])
  }

  /** Two strings that agree character by character once lower-cased. */
  predicate SameIgnoringCase(s: string, t: string) {
    |s| == |t| && forall i :: 0 <= i < |s| ==> LowerChar(s[i]) == LowerChar(t[i])
  }

  /**
   * The colour for a state: defined exactly on the states whose lower-cased form
   * is a key of Palette, and then it is that key's colour; otherwise the thrown
   * error names the state as given.
   */
  function GetStateColor(state: string): (r: Result<string>)
    ensures r.Success? <==> ToLower(state) in Palette
    ensures r.Success? ==> r.value == Palette[ToLower(state)]
    ensures r.Failure? ==> r.error == "Unknown state: " + state
  {
    match ToLower(state)
    case "open" => Success(OpenColor)
    case "merged" => Success(MergedColor)
    case "closed" => Success(ClosedColor)
    case _ => Failure("Unknown state: " + state)
  }

  /** The state a badge colour stands for, if any. */
  function StateOfColor(color: string): Option<string> {
    if color == OpenColor then Some("open")
    else if color == MergedColor then Some("merged")
    else if color == ClosedColor then Some("closed")
    else None
  }

  /** The three colours tell the three states apart: the colour gives back the lower-cased state. */
  lemma StateColorRoundTrip(state: string)
    requires GetStateColor(state).Success?
    ensures StateOfColor(GetStateColor(state).value) == Some(ToLower(state))
  {
  }

  /** The colour depends only on the lower-cased state: states equal up to case get the same outcome and colour. */
  lemma {:induction false} CaseInsensitive(s: string, t: string)
    requires SameIgnoringCase(s, t)
    ensures GetStateColor(s).Success? == GetStateColor(t).Success?
    ensures GetStateColor(s).Success? ==> GetStateColor(s).value == GetStateColor(t).value
  {
    assert ToLower(s) == ToLower(t);
  }

  /** Lower-casing first changes nothing: a state and its lower-cased form get the same outcome and colour. */
  lemma {:induction false} LowerFirstSameColor(state: string)
    ensures GetStateColor(ToLower(state)).Success? == GetStateColor(state).Success?
    ensures GetStateColor(state).Success? ==> GetStateColor(ToLower(state)).value == GetStateColor(state).value
  {
    assert ToLower(ToLower(state)) == ToLower(state);
  }

  /** "OPEN", "Open" and "open" all get the open colour. */
  lemma OpenAnyCase()
    ensures GetStateColor("open") == Success(OpenColor)
    ensures GetStateColor("OPEN") == Success(OpenColor)
    ensures GetStateColor("Open") == Success(OpenColor)
  {
    assert ToLower("open") == "open";
    assert ToLower("OPEN") == "open";
    assert ToLower("Open") == "open";
  }

  /** The merged and closed colours, whatever the case. */
  lemma MergedClosedAnyCase()
    ensures GetStateColor("MERGED") == Success(MergedColor)
    ensures GetStateColor("Closed") == Success(ClosedColor)
  {
    assert ToLower("MERGED") == "merged";
    assert ToLower("Closed") == "closed";
  }

  /** A state whose length matches no key cannot be a key once lower-cased, so it throws. */
  lemma LengthMismatchThrows(state: string)
    requires |state| != 4 && |state| != 6
    ensures GetStateColor(state) == Failure("Unknown state: " + state)
  {
    assert |ToLower(state)| == |state|;
  }

  /** A state outside the table throws rather than falling back to a colour. */
  lemma UnknownStateThrows(state: string)
    requires state == "frobnicated"
    ensures GetStateColor(state) == Failure("Unknown state: frobnicated")
  {
    LengthMismatchThrows(state);
  }
}
