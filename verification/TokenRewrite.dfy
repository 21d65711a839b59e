/**
 Version rewriting in the pin bumper (scripts/pinbump/tree.go): the left-to-right scan of
 `replaceStandalone`. `VersionTree` has `replaceToken`, which applies it twice.

 The reference is position by position and knows nothing of the scan: `Rewritten` replaces every
 standalone occurrence and keeps every character outside them. `ScanIsExact` says the scan computes
 it although it jumps past each match; `ExactForEveryTextIff` says for which tokens that is so.
 */
module TokenRewrite {
  import opened Common

  predicate VersionChar(c: char) {
    IsDigit(c) || c == '.'
  }

  /** Not part of a longer version: neither neighbour continues it. */
  predicate Standalone(s: string, start: nat, end: nat)
    requires start <= end <= |s|
  {
    && (start > 0 ==> !VersionChar(s[start - 1]))
    && (end < |s| ==>
          && !IsDigit(s[end])
          && !(s[end] == '.' && end + 1 < |s| && IsDigit(s[end + 1]))
          && !(s[end] == '\\' && end + 2 < |s| && s[end + 1] == '.' && IsDigit(s[end + 2])))
  }

  predicate OccursAt(s: string, tok: string, p: nat) {
    p + |tok| <= |s| && s[p..p + |tok|] == tok
  }

  /** A standalone occurrence of `tok` starts at `p`. */
  predicate Token(s: string, tok: string, p: nat) {
    OccursAt(s, tok, p) && Standalone(s, p, p + |tok|)
  }

  // ---------------------------------------------------------------------------------------------
  // The reference: what exact rewriting means

  ghost predicate Covered(s: string, tok: string, p: nat) {
    exists q: nat :: q <= p < q + |tok| && Token(s, tok, q)
  }

  /** What the character at `p` becomes. */
  ghost function Piece(s: string, tok: string, repl: string, p: nat): string
    requires p < |s|
  {
    if Token(s, tok, p) then repl else if Covered(s, tok, p) then "" else [s[p]]
  }

  ghost function Rewritten(s: string, tok: string, repl: string, from: nat): string
    requires from <= |s|
    decreases |s| - from
  {
    if from == |s| then "" else Piece(s, tok, repl, from) + Rewritten(s, tok, repl, from + 1)
  }

  /** The number of standalone occurrences starting at or after `from`, overlapping ones included. */
  function TokenCount(s: string, tok: string, from: nat): nat
    requires from <= |s|
    decreases |s| - from
  {
    if from == |s| then 0
    else (if Token(s, tok, from) then 1 else 0) + TokenCount(s, tok, from + 1)
  }

  // ---------------------------------------------------------------------------------------------
  // The scan

  /** The leftmost, non-overlapping scan: a match is consumed whole, replaced or not. */
  function Scan(s: string, tok: string, repl: string, i: nat): (string, nat)
    requires 0 < |tok| && i <= |s|
    decreases |s| - i
  {
    if i == |s| then ("", 0)
    else if !OccursAt(s, tok, i) then
      var rest := Scan(s, tok, repl, i + 1);
      ([s[i]] + rest.0, rest.1)
    else
      var rest := Scan(s, tok, repl, i + |tok|);
      if Standalone(s, i, i + |tok|) then (repl + rest.0, rest.1 + 1) else (tok + rest.0, rest.1)
  }

  /** The scan of a whole text; an empty token matches nothing. */
  function ScanAll(s: string, tok: string, repl: string): (string, nat) {
    if tok == "" then (s, 0) else Scan(s, tok, repl, 0)
  }

  lemma EmptyMatchesNothing(s: string, repl: string)
    ensures ScanAll(s, "", repl) == (s, 0)
  {
  }

  lemma {:induction false} ScanSkips(s: string, tok: string, repl: string, i: nat, j: nat)
    requires 0 < |tok| && i <= j <= |s|
    requires forall p: nat :: i <= p < j ==> !OccursAt(s, tok, p)
    ensures Scan(s, tok, repl, i).0 == s[i..j] + Scan(s, tok, repl, j).0
    ensures Scan(s, tok, repl, i).1 == Scan(s, tok, repl, j).1
    decreases j - i
  {
    if i < j {
      ScanSkips(s, tok, repl, i + 1, j);
      HeadOfStretch(s, i, j, Scan(s, tok, repl, j).0);
    }
  }

  /** One iteration of the loop: on to the first match at `j` and over it. */
  lemma ScanStep(s: string, tok: string, repl: string, i: nat, j: nat)
    requires 0 < |tok| && i <= j && OccursAt(s, tok, j)
    requires forall p: nat :: i <= p < j ==> !OccursAt(s, tok, p)
    ensures var end := j + |tok|;
            var rest := Scan(s, tok, repl, end);
            && Scan(s, tok, repl, i).0 == (if Standalone(s, j, end) then s[i..j] + repl else s[i..end]) + rest.0
            && Scan(s, tok, repl, i).1 == (if Standalone(s, j, end) then 1 else 0) + rest.1
  {
    ScanSkips(s, tok, repl, i, j);
    assert s[i..j + |tok|] == s[i..j] + tok;
  }

  /** strings.Index from `from` on: the first occurrence, or -1. */
  method Index(s: string, tok: string, from: nat) returns (j: int)
    requires from <= |s|
    ensures j >= 0 ==> from <= j && OccursAt(s, tok, j)
    ensures forall p: nat :: from <= p && (j < 0 || p < j) ==> !OccursAt(s, tok, p)
  {
    j := from;
    while j + |tok| <= |s|
      invariant from <= j <= |s| + 1
      invariant forall p: nat :: from <= p < j ==> !OccursAt(s, tok, p)
    {
      if s[j..j + |tok|] == tok {
        return;
      }
      j := j + 1;
    }
    j := -1;
  }

  /** What is written so far and the scan from here on make up the whole scan. */
  ghost predicate Carries(s: string, tok: string, repl: string, i: nat, text: string, count: nat)
    requires tok != "" && i <= |s|
  {
    && Scan(s, tok, repl, 0).0 == text + Scan(s, tok, repl, i).0
    && Scan(s, tok, repl, 0).1 == count + Scan(s, tok, repl, i).1
  }

  lemma CarriesOver(s: string, tok: string, repl: string, i: nat, j: nat, text: string, count: nat)
    requires 0 < |tok| && i <= j && OccursAt(s, tok, j) && Carries(s, tok, repl, i, text, count)
    requires forall p: nat :: i <= p < j ==> !OccursAt(s, tok, p)
    ensures var end := j + |tok|;
            if Standalone(s, j, end) then Carries(s, tok, repl, end, text + (s[i..j] + repl), count + 1)
            else Carries(s, tok, repl, end, text + s[i..end], count)
  {
    ScanStep(s, tok, repl, i, j);
    var end := j + |tok|;
    var piece, rest := if Standalone(s, j, end) then s[i..j] + repl else s[i..end], Scan(s, tok, repl, end).0;
    assert (text + piece) + rest == text + (piece + rest);
  }

  method ReplaceStandalone(s: string, tok: string, repl: string) returns (text: string, count: nat)
    ensures (text, count) == ScanAll(s, tok, repl)
    ensures tok != "" && NeverHidesToken(tok) ==>
              text == Rewritten(s, tok, repl, 0) && count == TokenCount(s, tok, 0)
  {
    text, count := "", 0;
    if tok == "" {
      return s, 0;
    }
    var i := 0;
    while true
      invariant i <= |s| && Carries(s, tok, repl, i, text, count)
      decreases |s| - i
    {
      var j := Index(s, tok, i);
      if j < 0 {
        ScanSkips(s, tok, repl, i, |s|);
        assert s[i..|s|] + "" == s[i..];
        text := text + s[i..];
        break;
      }
      CarriesOver(s, tok, repl, i, j, text, count);
      var end := j + |tok|;
      if Standalone(s, j, end) {
        text := text + (s[i..j] + repl);
        count := count + 1;
      } else {
        text := text + s[i..end];
      }
      i := end;
    }
    if NeverHidesToken(tok) {
      ScanIsExact(s, tok, repl, 0);
    }
  }

  // ---------------------------------------------------------------------------------------------
  // Exactness

  /** `tok` can overlap itself `k` characters further on. */
  predicate Overlaps(tok: string, k: nat)
    requires k <= |tok|
  {
    tok[k..] == tok[..|tok| - k]
  }

  /** Wherever `tok` overlaps itself, the later copy is glued to a digit or a dot. */
  predicate NeverHidesToken(tok: string) {
    forall k: nat :: 0 < k < |tok| && Overlaps(tok, k) ==> VersionChar(tok[k - 1])
  }

  /** No standalone occurrence straddles position `i`. */
  ghost predicate NoStraddle(s: string, tok: string, i: nat) {
    forall q: nat :: q < i < q + |tok| ==> !Token(s, tok, q)
  }

  lemma OverlapOfOccurrences(s: string, tok: string, j: nat, q: nat)
    requires OccursAt(s, tok, j) && OccursAt(s, tok, q) && j < q < j + |tok|
    ensures Overlaps(tok, q - j)
  {
    var k := q - j;
    assert tok[k..] == s[q..j + |tok|];
    assert tok[..|tok| - k] == s[q..j + |tok|];
  }

  lemma MatchHidesNothing(s: string, tok: string, j: nat, q: nat)
    requires NeverHidesToken(tok) && OccursAt(s, tok, j) && j < q < j + |tok|
    ensures !Token(s, tok, q)
  {
    if OccursAt(s, tok, q) {
      OverlapOfOccurrences(s, tok, j, q);
      assert s[q - 1] == s[j..j + |tok|][q - 1 - j] == tok[q - j - 1];
    }
  }

  lemma {:induction false} DroppedStretch(s: string, tok: string, repl: string, i: nat, j: nat)
    requires i <= j <= |s|
    requires forall p: nat :: i <= p < j ==> !Token(s, tok, p) && Covered(s, tok, p)
    ensures Rewritten(s, tok, repl, i) == Rewritten(s, tok, repl, j)
    ensures TokenCount(s, tok, i) == TokenCount(s, tok, j)
    decreases j - i
  {
    if i < j {
      DroppedStretch(s, tok, repl, i + 1, j);
    }
  }

  lemma KeptOne(s: string, tok: string, repl: string, i: nat)
    requires i < |s| && !Token(s, tok, i) && !Covered(s, tok, i)
    ensures Rewritten(s, tok, repl, i) == [s[i]] + Rewritten(s, tok, repl, i + 1)
    ensures TokenCount(s, tok, i) == TokenCount(s, tok, i + 1)
  {
  }

  lemma HeadOfStretch(s: string, i: nat, j: nat, rest: string)
    requires i < j <= |s|
    ensures s[i..j] + rest == [s[i]] + (s[i + 1..j] + rest)
  {
  }

  lemma {:induction false} KeptStretch(s: string, tok: string, repl: string, i: nat, j: nat)
    requires i <= j <= |s|
    requires forall p: nat :: i <= p < j ==> !Token(s, tok, p) && !Covered(s, tok, p)
    ensures Rewritten(s, tok, repl, i) == s[i..j] + Rewritten(s, tok, repl, j)
    ensures TokenCount(s, tok, i) == TokenCount(s, tok, j)
    decreases j - i
  {
    if i < j {
      KeptStretch(s, tok, repl, i + 1, j);
      KeptOne(s, tok, repl, i);
      HeadOfStretch(s, i, j, Rewritten(s, tok, repl, j));
    }
  }

  /** The reference consumes a match whole, exactly as the scan does. */
  lemma ReferenceAtMatch(s: string, tok: string, repl: string, j: nat)
    requires 0 < |tok| && NeverHidesToken(tok) && NoStraddle(s, tok, j) && OccursAt(s, tok, j)
    ensures var end := j + |tok|;
            && NoStraddle(s, tok, end)
            && Rewritten(s, tok, repl, j) ==
               (if Standalone(s, j, end) then repl else tok) + Rewritten(s, tok, repl, end)
            && TokenCount(s, tok, j) == (if Standalone(s, j, end) then 1 else 0) + TokenCount(s, tok, end)
  {
    var end := j + |tok|;
    forall q: nat | j < q < end ensures !Token(s, tok, q) {
      MatchHidesNothing(s, tok, j, q);
    }
    if Standalone(s, j, end) {
      assert Token(s, tok, j);
      DroppedStretch(s, tok, repl, j + 1, end);
    } else {
      KeptStretch(s, tok, repl, j, end);
    }
  }

  /** From any position no token straddles, the scan is the reference, text and count. */
  lemma {:induction false} ScanIsExact(s: string, tok: string, repl: string, i: nat)
    requires 0 < |tok| && i <= |s| && NeverHidesToken(tok) && NoStraddle(s, tok, i)
    ensures Scan(s, tok, repl, i) == (Rewritten(s, tok, repl, i), TokenCount(s, tok, i))
    decreases |s| - i
  {
    if i < |s| {
      if OccursAt(s, tok, i) {
        ReferenceAtMatch(s, tok, repl, i);
        ScanIsExact(s, tok, repl, i + |tok|);
      } else {
        ScanIsExact(s, tok, repl, i + 1);
      }
    }
  }

  /** A text in which the scan steps over the standalone copy that starts inside its first match. */
  function HidingText(tok: string, k: nat): string
    requires k <= |tok|
  {
    tok + tok[|tok| - k..]
  }

  lemma HiddenToken(tok: string, repl: string, k: nat)
    requires 0 < k < |tok| && Overlaps(tok, k) && !VersionChar(tok[k - 1])
    ensures Scan(HidingText(tok, k), tok, repl, 0).1 < TokenCount(HidingText(tok, k), tok, 0)
  {
    var s := HidingText(tok, k);
    assert s[0..|tok|] == tok;
    assert s[k..k + |tok|] == tok[k..] + tok[|tok| - k..] == tok;
    assert Token(s, tok, k);
    ScanSkips(s, tok, repl, |tok|, |s|);
    CountAtLeast(s, tok, 1, k);
  }

  lemma {:induction false} CountAtLeast(s: string, tok: string, from: nat, p: nat)
    requires from <= p < |s| && Token(s, tok, p)
    ensures TokenCount(s, tok, from) >= 1
    decreases p - from
  {
    if from < p {
      CountAtLeast(s, tok, from + 1, p);
    }
  }

  /** The scan rewrites every standalone occurrence of `tok` in every text exactly for these tokens. */
  lemma ExactForEveryTextIff(tok: string, repl: string)
    requires 0 < |tok|
    ensures (forall s: string :: Scan(s, tok, repl, 0) == (Rewritten(s, tok, repl, 0), TokenCount(s, tok, 0)))
        <==> NeverHidesToken(tok)
  {
    if NeverHidesToken(tok) {
      forall s: string
        ensures Scan(s, tok, repl, 0) == (Rewritten(s, tok, repl, 0), TokenCount(s, tok, 0))
      {
        ScanIsExact(s, tok, repl, 0);
      }
    } else {
      var k: nat :| 0 < k < |tok| && Overlaps(tok, k) && !VersionChar(tok[k - 1]);
      HiddenToken(tok, repl, k);
      var s := HidingText(tok, k);
      assert Scan(s, tok, repl, 0) != (Rewritten(s, tok, repl, 0), TokenCount(s, tok, 0));
    }
  }

  // ---------------------------------------------------------------------------------------------
  // Versions, plain and escaped

  predicate IsVersion(v: string) {
    && 0 < |v| && IsDigit(v[0]) && IsDigit(v[|v| - 1])
    && forall k :: 0 <= k < |v| ==> VersionChar(v[k])
  }

  /** A version as a regular expression writes it: every dot behind a backslash. */
  function Escape(v: string): string {
    if v == "" then "" else (if v[0] == '.' then "\\." else [v[0]]) + Escape(v[1..])
  }

  predicate GluedAt(t: string, k: nat)
    requires 0 < k < |t|
  {
    IsDigit(t[k]) ==> VersionChar(t[k - 1])
  }

  ghost predicate DigitsAreGlued(t: string) {
    forall k: nat :: 0 < k < |t| ==> GluedAt(t, k)
  }

  lemma {:induction false} EscapeIsGlued(v: string)
    requires forall k :: 0 <= k < |v| ==> VersionChar(v[k])
    ensures DigitsAreGlued(Escape(v))
    ensures v == "" ==> Escape(v) == ""
    ensures v != "" ==> Escape(v) != "" && (IsDigit(v[0]) ==> Escape(v)[0] == v[0])
  {
    if v != "" {
      EscapeIsGlued(v[1..]);
      var head := if v[0] == '.' then "\\." else [v[0]];
      var tail := Escape(v[1..]);
      assert Escape(v) == head + tail;
      forall k: nat | 0 < k < |head + tail| ensures GluedAt(head + tail, k) {
        if k > |head| {
          assert GluedAt(tail, k - |head|);
        }
      }
    }
  }

  lemma GluedNeverHides(t: string)
    requires 0 < |t| && IsDigit(t[0]) && DigitsAreGlued(t)
    ensures NeverHidesToken(t)
  {
    forall k: nat | 0 < k < |t| && Overlaps(t, k) ensures VersionChar(t[k - 1]) {
      assert t[k] == t[k..][0] == t[..|t| - k][0] == t[0];
      assert GluedAt(t, k);
    }
  }

  /** Both spellings `replaceToken` looks for are rewritten exactly. */
  lemma VersionsNeverHide(v: string)
    requires IsVersion(v)
    ensures NeverHidesToken(v) && NeverHidesToken(Escape(v)) && Escape(v) != ""
  {
    GluedNeverHides(v);
    EscapeIsGlued(v);
    GluedNeverHides(Escape(v));
  }
}
