/** The string operations of the host language that the services use. */
module Text {
  import opened Wrappers

  predicate IsSpace(c: char) {
    || '\t' <= c <= '\r'
    || c in [' ', '\U{A0}', '\U{1680}', '\U{2028}', '\U{2029}', '\U{202F}', '\U{205F}',
      '\U{3000}', '\U{FEFF}']
    || '\U{2000}' <= c <= '\U{200A}'
  }

  function TrimStart(s: string): string {
    if s != "" && IsSpace(s[0]) then TrimStart(s[1..]) else s
  }

  function TrimEnd(s: string): string {
    if s != "" && IsSpace(s[|s| - 1]) then TrimEnd(s[..|s| - 1]) else s
  }

  function Trim(s: string): string {
    TrimEnd(TrimStart(s))
  }

  /** A text without its outer spaces; none if nothing is left. */
  function Trimmed(text: Option<string>): Option<string> {
    if text.Some? && Trim(text.value) != "" then Some(Trim(text.value)) else None
  }

  predicate StartsAt(s: string, part: string, k: nat) {
    k + |part| <= |s| && s[k..k + |part|] == part
  }

  predicate Contains(s: string, part: string) {
    exists k :: 0 <= k <= |s| && StartsAt(s, part, k)
  }

  // Trimming.

  lemma {:induction false} TrimEndStops(s: string)
    ensures TrimEnd(s) == "" || !IsSpace(TrimEnd(s)[|TrimEnd(s)| - 1])
    ensures TrimEnd(s) <= s
  {
    if s != "" && IsSpace(s[|s| - 1]) { TrimEndStops(s[..|s| - 1]); }
  }

  lemma {:induction false} TrimStartStops(s: string)
    ensures TrimStart(s) == "" || !IsSpace(TrimStart(s)[0])
  {
    if s != "" && IsSpace(s[0]) { TrimStartStops(s[1..]); }
  }

  lemma {:induction false} TrimTwice(s: string)
    ensures Trim(Trim(s)) == Trim(s)
  {
    TrimStartStops(s);
    TrimEndStops(TrimStart(s));
    TrimEndStops(Trim(s));
  }

  lemma {:induction false} TrimStartDrops(s: string)
    ensures exists k :: 0 <= k <= |s| && s[k..] == TrimStart(s) && forall i :: 0 <= i < k ==> IsSpace(s[i])
  {
    if s != "" && IsSpace(s[0]) {
      TrimStartDrops(s[1..]);
      var k :| 0 <= k <= |s| - 1 && s[1..][k..] == TrimStart(s[1..]) && forall i :: 0 <= i < k ==> IsSpace(s[1..][i]);
      assert s[k + 1..] == s[1..][k..];
      assert forall i :: 0 <= i < k + 1 ==> IsSpace(s[i]) by {
        forall i | 0 <= i < k + 1 ensures IsSpace(s[i]) { if i > 0 { assert s[i] == s[1..][i - 1]; } }
      }
    } else {
      assert s[0..] == s;
    }
  }

  lemma {:induction false} TrimEndDrops(s: string)
    ensures |TrimEnd(s)| <= |s| && s[..|TrimEnd(s)|] == TrimEnd(s)
    ensures forall i :: |TrimEnd(s)| <= i < |s| ==> IsSpace(s[i])
  {
    if s != "" && IsSpace(s[|s| - 1]) { TrimEndDrops(s[..|s| - 1]); }
  }

  ghost predicate Spaces(s: string) {
    forall i :: 0 <= i < |s| ==> IsSpace(s[i])
  }

  /** The text is t with spaces before and after. */
  ghost predicate Padded(s: string, before: string, t: string, after: string) {
    s == before + t + after && Spaces(before) && Spaces(after)
  }

  lemma EndPads(s: string) returns (after: string)
    ensures s == TrimEnd(s) + after && Spaces(after)
  {
    hide TrimEnd, IsSpace;
    TrimEndDrops(s);
    var n := |TrimEnd(s)|;
    after := s[n..];
    assert s == s[..n] + after;
    forall i | 0 <= i < |s| - n ensures IsSpace(after[i]) { assert after[i] == s[n + i]; }
  }

  lemma TrimPads(s: string, k: nat)
    requires k <= |s| && s[k..] == TrimStart(s) && forall i :: 0 <= i < k ==> IsSpace(s[i])
    ensures exists before, after :: Padded(s, before, Trim(s), after)
  {
    hide TrimStart, TrimEnd, IsSpace, Padded;
    var rest := TrimStart(s);
    var after := EndPads(rest);
    assert Spaces(s[..k]);
    SpacesPad(s, k, Trim(s), after);
    assert Padded(s, s[..k], Trim(s), after);
  }

  lemma SpacesPad(s: string, k: nat, t: string, after: string)
    requires k <= |s| && s[k..] == t + after && Spaces(s[..k]) && Spaces(after)
    ensures Padded(s, s[..k], t, after)
  {
    assert s == s[..k] + (t + after);
    assert s[..k] + (t + after) == s[..k] + t + after;
  }

  /** Trimming takes away spaces at the two ends, and all of them. */
  lemma TrimMeans(s: string)
    ensures exists before, after :: Padded(s, before, Trim(s), after)
    ensures Trim(s) != "" ==> !IsSpace(Trim(s)[0]) && !IsSpace(Trim(s)[|Trim(s)| - 1])
  {
    TrimStartStops(s);
    TrimEndStops(TrimStart(s));
    TrimStartDrops(s);
    hide TrimStart, TrimEnd, IsSpace;
    var k :| 0 <= k <= |s| && s[k..] == TrimStart(s) && forall i :: 0 <= i < k ==> IsSpace(s[i]);
    TrimPads(s, k);
  }

  /** The white space of the host language, by codes. */
  lemma SpacesAre(c: char)
    ensures IsSpace(c)
       <==> 9 <= c as int <= 13 || c as int in {32, 160, 5760, 8232, 8233, 8239, 8287, 12288, 65279}
            || 8192 <= c as int <= 8202
  {
  }

  ghost predicate Inside(s: string, part: string, before: string, after: string) {
    s == before + part + after
  }

  lemma ContainsIff(s: string, part: string)
    ensures Contains(s, part) <==> exists before, after :: Inside(s, part, before, after)
  {
    if Contains(s, part) {
      var k :| 0 <= k <= |s| && StartsAt(s, part, k);
      assert Inside(s, part, s[..k], s[k + |part|..]);
    }
    if before, after :| Inside(s, part, before, after) {
      assert StartsAt(s, part, |before|);
    }
  }
}
