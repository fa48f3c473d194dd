/** White space as Go's strings.TrimSpace and strings.Fields see it. */
module Spaces {

  predicate IsSpace(c: char) {
    || c == ' ' || ('\t' <= c <= '\r') || c == '\U{85}' || c == '\U{A0}' || c == '\U{1680}'
    || ('\U{2000}' <= c <= '\U{200A}') || c == '\U{2028}' || c == '\U{2029}' || c == '\U{202F}'
    || c == '\U{205F}' || c == '\U{3000}'
  }

  // strings.TrimSpace(s) == ""
  predicate Blank(s: string) {
    forall i | 0 <= i < |s| :: IsSpace(s[i])
  }

  /* strings.TrimSpace */

  // The first position from i on that is not space.
  function FirstInk(s: string, i: nat): (n: nat)
    requires i <= |s|
    ensures i <= n <= |s| && forall k | i <= k < n :: IsSpace(s[k])
    ensures n < |s| ==> !IsSpace(s[n])
    decreases |s| - i
  {
    if i < |s| && IsSpace(s[i]) then FirstInk(s, i + 1) else i
  }

  // The position behind the last one before i that is not space, and not before from.
  function LastInk(s: string, from: nat, i: nat): (n: nat)
    requires from <= i <= |s|
    ensures from <= n <= i && forall k | n <= k < i :: IsSpace(s[k])
    ensures from < n ==> !IsSpace(s[n - 1])
    decreases i
  {
    if from < i && IsSpace(s[i - 1]) then LastInk(s, from, i - 1) else i
  }

  function TrimSpace(s: string): string {
    var from := FirstInk(s, 0);
    s[from..LastInk(s, from, |s|)]
  }

  // t is s from a to b, there is only space around it, and none at its ends.
  ghost predicate TrimmedAt(s: string, t: string, a: nat, b: nat) {
    && a <= b <= |s| && t == s[a..b]
    && (forall k | 0 <= k < a :: IsSpace(s[k]))
    && (forall k | b <= k < |s| :: IsSpace(s[k]))
    && (a < b ==> !IsSpace(s[a]) && !IsSpace(s[b - 1]))
  }

  lemma TrimSpaceIsTrimmed(s: string) returns (a: nat, b: nat)
    ensures TrimmedAt(s, TrimSpace(s), a, b)
  {
    a := FirstInk(s, 0);
    b := LastInk(s, a, |s|);
  }

  lemma TrimsToNothing(s: string)
    ensures TrimSpace(s) == "" <==> Blank(s)
  {
    var a, b := TrimSpaceIsTrimmed(s);
  }
}
