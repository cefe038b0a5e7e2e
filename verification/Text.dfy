/** Python's notion of blank text, as used by `str.strip`. */
module Text {

  /** The characters `str.isspace` accepts. */
  predicate IsSpace(c: char) {
    || '\t' <= c <= '\r' || '\U{1c}' <= c <= ' ' || c == '\U{85}' || c == '\U{a0}' || c == '\U{1680}'
    || '\U{2000}' <= c <= '\U{200a}' || c == '\U{2028}' || c == '\U{2029}' || c == '\U{202f}'
    || c == '\U{205f}' || c == '\U{3000}'
  }

  predicate Blank(s: string) {
    forall i :: 0 <= i < |s| ==> IsSpace(s[i])
  }

  function StripLeft(s: string): string {
    if s != "" && IsSpace(s[0]) then StripLeft(s[1..]) else s
  }

  function StripRight(s: string): string {
    if s != "" && IsSpace(s[|s| - 1]) then StripRight(s[..|s| - 1]) else s
  }

  function Strip(s: string): string {
    StripRight(StripLeft(s))
  }

  /** What stripping leaves: the middle of the text, with no blank at either end. */
  lemma {:induction false} StripMeaning(s: string) returns (before: string, after: string)
    ensures s == before + Strip(s) + after && Blank(before) && Blank(after)
    ensures Strip(s) != "" ==> !IsSpace(Strip(s)[0]) && !IsSpace(Strip(s)[|Strip(s)| - 1])
    ensures Strip(s) == "" <==> Blank(s)
  {
    before := StripLeftMeaning(s);
    after := StripRightMeaning(StripLeft(s));
    if Strip(s) != "" {
      assert s[|before|] == Strip(s)[0];
    }
  }

  lemma {:induction false} StripLeftMeaning(s: string) returns (before: string)
    ensures s == before + StripLeft(s) && Blank(before)
    ensures StripLeft(s) != "" ==> !IsSpace(StripLeft(s)[0])
  {
    if s != "" && IsSpace(s[0]) {
      var rest := StripLeftMeaning(s[1..]);
      before := [s[0]] + rest;
    } else {
      before := "";
    }
  }

  lemma {:induction false} StripRightMeaning(s: string) returns (after: string)
    ensures s == StripRight(s) + after && Blank(after)
    ensures StripRight(s) != "" ==> !IsSpace(StripRight(s)[|StripRight(s)| - 1]) && StripRight(s)[0] == s[0]
    ensures s != "" && !IsSpace(s[0]) ==> StripRight(s) != ""
  {
    if s != "" && IsSpace(s[|s| - 1]) {
      var rest := StripRightMeaning(s[..|s| - 1]);
      after := rest + [s[|s| - 1]];
    } else {
      after := "";
    }
  }
}
