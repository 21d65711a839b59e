/**
 `replaceToken` in the pin bumper (scripts/pinbump/tree.go): a file is scanned for a version as written
 and then for the version as a regular expression escapes it.

 The second scan reads what the first one wrote. `TwoPassesExactIff` says for which versions the two
 together still rewrite and count exactly the occurrences of the file as it was.
 */
module VersionTree {
  import opened Common
  import opened TokenRewrite

  // ---------------------------------------------------------------------------------------------
  // The reference: two tokens at once, in the text as it was

  datatype Edit = Edit(from: string, to: string)

  /** What the character at `p` becomes when both edits are made in place. */
  ghost function BothPiece(s: string, a: Edit, b: Edit, p: nat): string
    requires p < |s|
  {
    if Token(s, a.from, p) then a.to
    else if Token(s, b.from, p) then b.to
    else if Covered(s, a.from, p) || Covered(s, b.from, p) then ""
    else [s[p]]
  }

  ghost function BothRewritten(s: string, a: Edit, b: Edit, from: nat): string
    requires from <= |s|
    decreases |s| - from
  {
    if from == |s| then "" else BothPiece(s, a, b, from) + BothRewritten(s, a, b, from + 1)
  }

  /** Standalone occurrences of either token; a place where both start counts once. */
  ghost function BothCount(s: string, a: Edit, b: Edit, from: nat): nat
    requires from <= |s|
    decreases |s| - from
  {
    if from == |s| then 0
    else (if Token(s, a.from, from) || Token(s, b.from, from) then 1 else 0) + BothCount(s, a, b, from + 1)
  }

  /** What `replaceToken` writes and counts. */
  function TwoPasses(s: string, a: Edit, b: Edit): (string, nat) {
    var first := ScanAll(s, a.from, a.to);
    var second := ScanAll(first.0, b.from, b.to);
    (second.0, first.1 + second.1)
  }

  function Plain(v: string, next: string): Edit {
    Edit(v, next)
  }

  function Escaped(v: string, next: string): Edit {
    Edit(Escape(v), Escape(next))
  }

  // ---------------------------------------------------------------------------------------------
  // The shape of a version

  /** The digits before the first dot. */
  function Lead(v: string): string {
    if v == "" || v[0] == '.' then "" else [v[0]] + Lead(v[1..])
  }

  lemma {:induction false} LeadSplits(v: string)
    requires forall k :: 0 <= k < |v| ==> VersionChar(v[k])
    ensures |Lead(v)| <= |v| && v[..|Lead(v)|] == Lead(v)
    ensures forall k :: 0 <= k < |Lead(v)| ==> IsDigit(v[k])
    ensures |Lead(v)| < |v| ==> v[|Lead(v)|] == '.'
    ensures '.' in v <==> |Lead(v)| < |v|
  {
    if v != "" {
      LeadSplits(v[1..]);
      assert v == [v[0]] + v[1..];
    }
  }

  lemma {:induction false} EscapeKeepsLead(v: string)
    requires forall k :: 0 <= k < |v| ==> VersionChar(v[k])
    ensures |Lead(v)| <= |v| && Escape(v) == Lead(v) + Escape(v[|Lead(v)|..])
  {
    if v != "" && v[0] != '.' {
      EscapeKeepsLead(v[1..]);
      assert v[1..][|Lead(v[1..])|..] == v[|Lead(v)|..];
      assert [v[0]] + (Lead(v[1..]) + Escape(v[|Lead(v)|..])) == Lead(v) + Escape(v[|Lead(v)|..]);
    } else {
      assert v[0..] == v;
    }
  }

  lemma {:induction false} EscapeEnds(v: string)
    requires v != ""
    ensures Escape(v) != "" && Escape(v)[|Escape(v)| - 1] == v[|v| - 1]
  {
    if |v| > 1 {
      EscapeEnds(v[1..]);
    } else {
      assert Escape(v[1..]) == "";
    }
  }

  /** What both scans look for: it starts and ends with a digit, and no other character precedes a digit. */
  ghost predicate Compact(t: string) {
    t != "" && IsDigit(t[0]) && IsDigit(t[|t| - 1]) && DigitsAreGlued(t)
  }

  lemma SpellingsAreCompact(v: string)
    requires IsVersion(v)
    ensures Compact(v) && Compact(Escape(v)) && NeverHidesToken(v) && NeverHidesToken(Escape(v))
  {
    VersionsNeverHide(v);
    EscapeIsGlued(v);
    EscapeEnds(v);
  }

  /** The rest of the escaped version from its first dot on. */
  function Tail(v: string): string
    requires |Lead(v)| <= |v|
  {
    Escape(v[|Lead(v)|..])
  }

  lemma DottedTail(v: string)
    requires IsVersion(v) && '.' in v
    ensures |Lead(v)| + 1 < |v| && v[|Lead(v)|] == '.'
    ensures Escape(v) == Lead(v) + Tail(v)
    ensures |Tail(v)| > 2 && Tail(v)[0] == '\\' && Tail(v)[1] == '.'
    ensures IsDigit(Tail(v)[2]) <==> v[|Lead(v)| + 1] != '.'
  {
    LeadSplits(v);
    EscapeKeepsLead(v);
    var d := |Lead(v)|;
    var t := v[d..];
    assert t[0] == '.' && t[1..] == v[d + 1..] && t[1..][0] == v[d + 1];
    assert Tail(v) == "\\." + Escape(t[1..]);
    assert Escape(t[1..]) == (if v[d + 1] == '.' then "\\." else [v[d + 1]]) + Escape(t[1..][1..]);
  }

  lemma DotlessEscape(v: string)
    requires IsVersion(v) && '.' !in v
    ensures Escape(v) == v == Lead(v) && Tail(v) == ""
    ensures forall k :: 0 <= k < |v| ==> IsDigit(v[k])
  {
    LeadSplits(v);
    EscapeKeepsLead(v);
    assert v[|v|..] == "";
  }

  // ---------------------------------------------------------------------------------------------
  // A token seen from its own start

  /** What may follow a standalone token. */
  predicate MayFollow(z: string) {
    z != "" ==>
      && !IsDigit(z[0])
      && !(z[0] == '.' && 1 < |z| && IsDigit(z[1]))
      && !(z[0] == '\\' && 2 < |z| && z[1] == '.' && IsDigit(z[2]))
  }

  predicate Leads(z: string, tok: string) {
    |tok| <= |z| && z[..|tok|] == tok && MayFollow(z[|tok|..])
  }

  lemma TokenAhead(s: string, tok: string, p: nat)
    requires p <= |s|
    ensures Token(s, tok, p) <==> (p > 0 ==> !VersionChar(s[p - 1])) && Leads(s[p..], tok)
  {
    var z := s[p..];
    if p + |tok| <= |s| {
      assert z[..|tok|] == s[p..p + |tok|];
      assert z[|tok|..] == s[p + |tok|..];
    }
  }

  /** The two rests of a text differ from a digit on, and what comes before it does not touch it. */
  ghost predicate Apart(a: string, x: string, y: string) {
    a != "" && !VersionChar(a[|a| - 1]) && x != "" && IsDigit(x[0]) && y != "" && IsDigit(y[0])
  }

  lemma FollowSame(a: string, x: string, y: string)
    requires Apart(a, x, y)
    ensures MayFollow(a + x) <==> MayFollow(a + y)
  {
    assert (a + x)[0] == a[0] == (a + y)[0];
    if |a| == 2 {
      assert (a + x)[1] == a[1] == (a + y)[1];
    }
  }

  lemma GluedThere(t: string, k: nat)
    requires DigitsAreGlued(t)
    ensures 0 < k < |t| ==> GluedAt(t, k)
  {
  }

  lemma LeadsFits(a: string, x: string, tok: string)
    requires Apart(a, x, x) && Compact(tok) && |tok| <= |a + x| && (a + x)[..|tok|] == tok
    ensures |tok| < |a|
  {
    var z, n := a + x, |a|;
    assert forall k :: 0 <= k < |tok| ==> z[k] == tok[k];
    assert z[n - 1] == a[n - 1] && z[n] == x[0];
    GluedThere(tok, n);
  }

  lemma LeadsSame(a: string, x: string, y: string, tok: string)
    requires Apart(a, x, y) && Compact(tok) && Leads(a + x, tok)
    ensures Leads(a + y, tok)
  {
    LeadsFits(a, x, tok);
    var b := a[|tok|..];
    assert (a + x)[|tok|..] == b + x && (a + y)[|tok|..] == b + y;
    FollowSame(b, x, y);
    assert (a + y)[..|tok|] == (a + x)[..|tok|];
  }

  // ---------------------------------------------------------------------------------------------
  // What the first pass leaves for the second

  lemma CharAt(s: string, tok: string, i: nat, k: nat)
    ensures OccursAt(s, tok, i) && k < |tok| ==> s[i + k] == tok[k]
  {
    if OccursAt(s, tok, i) && k < |tok| {
      assert s[i + k] == s[i..i + |tok|][k];
    }
  }

  lemma StartsWithDigit(s: string, tok: string, i: nat)
    ensures Compact(tok) && Token(s, tok, i) ==> i < |s| && IsDigit(s[i])
  {
    CharAt(s, tok, i, 0);
  }

  lemma NoneCovered(s: string, tok: string, i: nat, t: nat)
    requires NoStraddle(s, tok, i) && forall p: nat :: i <= p < t ==> !Token(s, tok, p)
    ensures forall p: nat :: i <= p < t ==> !Covered(s, tok, p)
    ensures i <= t ==> NoStraddle(s, tok, t)
  {
    forall p: nat | i <= p < t ensures !Covered(s, tok, p) {
      assert forall q: nat :: q <= p < q + |tok| ==> !Token(s, tok, q);
    }
  }

  /** The two tokens are one, or never start at one place. */
  ghost predicate SameOrApart(a: string, b: string) {
    a == b || exists k :: 0 <= k < |a| && k < |b| && a[k] != b[k]
  }

  lemma NeverTogether(s: string, a: string, b: string, i: nat)
    requires SameOrApart(a, b) && Token(s, a, i) && Token(s, b, i)
    ensures a == b
  {
    forall k | 0 <= k < |a| && k < |b| ensures a[k] == b[k] {
      CharAt(s, a, i, k);
      CharAt(s, b, i, k);
    }
  }

  /** Inside an occurrence of a compact token no other starts. */
  lemma NoTokenInside(s: string, tok: string, other: string, i: nat)
    requires Compact(tok) && Compact(other) && OccursAt(s, tok, i)
    ensures forall q: nat :: i < q < i + |tok| ==> !Token(s, other, q)
  {
    forall q: nat | i < q < i + |tok| ensures !Token(s, other, q) {
      StartsWithDigit(s, other, q);
      assert GluedAt(tok, q - i);
      CharAt(s, tok, i, q - i);
      CharAt(s, tok, i, q - i - 1);
    }
  }

  lemma StraddlesNothing(s: string, tok: string, other: string, i: nat)
    requires Compact(tok) && Compact(other) && SameOrApart(tok, other)
    requires Token(s, tok, i) && NoStraddle(s, other, i)
    ensures NoStraddle(s, other, i + |tok|)
  {
    NoTokenInside(s, tok, other, i);
    if Token(s, other, i) {
      NeverTogether(s, tok, other, i);
    }
  }

  lemma ReplacedHere(s: string, a: Edit, i: nat)
    requires i < |s| && Token(s, a.from, i)
    ensures Rewritten(s, a.from, a.to, i) == a.to + Rewritten(s, a.from, a.to, i + 1)
    ensures TokenCount(s, a.from, i) == 1 + TokenCount(s, a.from, i + 1)
  {
  }

  lemma CoveredInside(s: string, tok: string, i: nat)
    requires Token(s, tok, i)
    ensures forall p: nat :: i <= p < i + |tok| ==> Covered(s, tok, p)
  {
  }

  /** The reference passes an occurrence whole. */
  lemma RewrittenAtToken(s: string, a: Edit, i: nat, end: nat)
    requires Compact(a.from) && Token(s, a.from, i) && end == i + |a.from|
    ensures Rewritten(s, a.from, a.to, i) == a.to + Rewritten(s, a.from, a.to, end)
    ensures TokenCount(s, a.from, i) == 1 + TokenCount(s, a.from, end)
  {
    NoTokenInside(s, a.from, a.from, i);
    CoveredInside(s, a.from, i);
    DroppedStretch(s, a.from, a.to, i + 1, end);
    ReplacedHere(s, a, i);
  }

  /** The next standalone token at or after `i`, or the end of the text. */
  lemma {:induction false} NextToken(s: string, tok: string, i: nat) returns (t: nat)
    requires i <= |s|
    ensures i <= t <= |s| && (t < |s| ==> Token(s, tok, t))
    ensures forall p: nat :: i <= p < t ==> !Token(s, tok, p)
    decreases |s| - i
  {
    if i == |s| || Token(s, tok, i) {
      t := i;
    } else {
      t := NextToken(s, tok, i + 1);
    }
  }

  ghost predicate CompactEdit(a: Edit) {
    Compact(a.from) && Compact(a.to)
  }

  lemma StartsApart(s: string, i: nat, t: nat, y: string)
    requires i < t < |s| && !VersionChar(s[t - 1]) && IsDigit(s[t]) && y != "" && IsDigit(y[0])
    ensures Apart(s[i..t], s[t..], y)
  {
  }

  lemma WrittenStarts(s: string, a: Edit, t: nat)
    requires CompactEdit(a) && t < |s| && Token(s, a.from, t)
    ensures var y := Rewritten(s, a.from, a.to, t);
            y != "" && IsDigit(y[0])
  {
    ReplacedHere(s, a, t);
    FirstOf(a.to, Rewritten(s, a.from, a.to, t + 1));
  }

  lemma FirstOf(x: string, y: string)
    requires x != ""
    ensures x + y != "" && (x + y)[0] == x[0]
  {
  }

  lemma StretchSplits(s: string, i: nat, t: nat)
    requires i <= t <= |s|
    ensures s[i..] == s[i..t] + s[t..]
  {
  }

  /** A stretch between tokens is kept, and what follows it starts with a digit in both texts. */
  lemma KeptUpTo(s: string, a: Edit, i: nat, t: nat)
    requires CompactEdit(a) && i < t <= |s| && NoStraddle(s, a.from, i)
    requires forall p: nat :: i <= p < t ==> !Token(s, a.from, p)
    requires t < |s| ==> Token(s, a.from, t)
    ensures s[i..] == s[i..t] + s[t..]
    ensures Rewritten(s, a.from, a.to, i) == s[i..t] + Rewritten(s, a.from, a.to, t)
    ensures t < |s| ==> Apart(s[i..t], s[t..], Rewritten(s, a.from, a.to, t))
  {
    NoneCovered(s, a.from, i, t);
    KeptStretch(s, a.from, a.to, i, t);
    StretchSplits(s, i, t);
    if t < |s| {
      StartsWithDigit(s, a.from, t);
      WrittenStarts(s, a, t);
      StartsApart(s, i, t, Rewritten(s, a.from, a.to, t));
    }
  }

  /** Outside the tokens of the first pass, the second one sees what stood there before. */
  lemma SeenAsBefore(s: string, a: Edit, tok: string, i: nat)
    requires CompactEdit(a) && Compact(tok)
    requires i < |s| && NoStraddle(s, a.from, i) && !Token(s, a.from, i)
    ensures Leads(Rewritten(s, a.from, a.to, i), tok) <==> Leads(s[i..], tok)
  {
    var t := NextToken(s, a.from, i);
    KeptUpTo(s, a, i, t);
    var kept, x, y := s[i..t], s[t..], Rewritten(s, a.from, a.to, t);
    if t < |s| {
      if Leads(s[i..], tok) {
        LeadsSame(kept, x, y, tok);
      }
      if Leads(Rewritten(s, a.from, a.to, i), tok) {
        LeadsSame(kept, y, x, tok);
      }
    }
  }

  lemma FollowsAsBefore(s: string, a: Edit, i: nat)
    requires CompactEdit(a) && i <= |s| && NoStraddle(s, a.from, i) && MayFollow(s[i..])
    ensures MayFollow(Rewritten(s, a.from, a.to, i))
  {
    if i < |s| {
      StartsWithDigit(s, a.from, i);
      assert s[i..][0] == s[i];
      var t := NextToken(s, a.from, i);
      KeptUpTo(s, a, i, t);
      if t < |s| {
        FollowSame(s[i..t], s[t..], Rewritten(s, a.from, a.to, t));
      }
    }
  }

  // ---------------------------------------------------------------------------------------------
  // Both passes at once

  /** Position `i` of the file has become position `j` of what the first pass wrote. */
  ghost predicate Aligned(s: string, a: Edit, r: string, i: nat, j: nat) {
    && i <= |s| && j <= |r| && r[j..] == Rewritten(s, a.from, a.to, i)
    && (i > 0 <==> j > 0) && (i > 0 && j > 0 ==> (VersionChar(s[i - 1]) <==> VersionChar(r[j - 1])))
  }

  /** Neither text has an occurrence across it. */
  ghost predicate Clear(s: string, a: Edit, tok: string, r: string, i: nat, j: nat) {
    NoStraddle(s, a.from, i) && NoStraddle(s, tok, i) && NoStraddle(r, tok, j)
  }

  ghost predicate Tracks(s: string, a: Edit, tok: string, r: string, i: nat, j: nat) {
    Aligned(s, a, r, i, j) && Clear(s, a, tok, r, i, j)
  }

  /** What is still found: by the first pass in the file, by the second in what the first one wrote. */
  ghost function Found(s: string, a: Edit, b: Edit, r: string, i: nat, j: nat): nat
    requires i <= |s| && j <= |r|
  {
    TokenCount(s, a.from, i) + TokenCount(r, b.from, j)
  }

  /** From here on the second pass makes what the first one left into the reference. */
  ghost predicate TextDone(s: string, a: Edit, b: Edit, r: string, i: nat, j: nat)
    requires i <= |s| && j <= |r|
  {
    Rewritten(r, b.from, b.to, j) == BothRewritten(s, a, b, i)
  }

  ghost predicate CountDone(s: string, a: Edit, b: Edit, r: string, i: nat, j: nat)
    requires i <= |s| && j <= |r|
  {
    Found(s, a, b, r, i, j) == BothCount(s, a, b, i)
  }

  /** Whatever may follow it, the written text is no match and does not begin one. */
  ghost predicate Unseen(written: string, tok: string) {
    forall y {:trigger Leads(written + y, tok)} :: MayFollow(y) ==> !Leads(written + y, tok)
  }

  /** Neither token starts at `p`, and an occurrence of one of them goes over it. */
  ghost predicate Dropped(s: string, a: Edit, b: Edit, p: nat) {
    !Token(s, a.from, p) && !Token(s, b.from, p) && (Covered(s, a.from, p) || Covered(s, b.from, p))
  }

  lemma DropOne(s: string, a: Edit, b: Edit, p: nat)
    requires p < |s| && Dropped(s, a, b, p)
    ensures BothRewritten(s, a, b, p) == BothRewritten(s, a, b, p + 1)
    ensures BothCount(s, a, b, p) == BothCount(s, a, b, p + 1)
  {
  }

  lemma {:induction false} BothDropped(s: string, a: Edit, b: Edit, i: nat, j: nat)
    requires i <= j <= |s| && forall p: nat :: i <= p < j ==> Dropped(s, a, b, p)
    ensures BothRewritten(s, a, b, i) == BothRewritten(s, a, b, j) && BothCount(s, a, b, i) == BothCount(s, a, b, j)
    decreases j - i
  {
    if i < j {
      DropOne(s, a, b, i);
      BothDropped(s, a, b, i + 1, j);
    }
  }

  lemma DroppedInside(s: string, a: Edit, b: Edit, tok: string, i: nat)
    requires Compact(a.from) && Compact(b.from) && (tok == a.from || tok == b.from) && Token(s, tok, i)
    ensures forall p: nat :: i < p < i + |tok| ==> Dropped(s, a, b, p)
  {
    NoTokenInside(s, tok, a.from, i);
    NoTokenInside(s, tok, b.from, i);
    CoveredInside(s, tok, i);
  }

  /** The reference passes an occurrence of the first token whole. */
  lemma BothAtFirst(s: string, a: Edit, b: Edit, i: nat, end: nat)
    requires Compact(a.from) && Compact(b.from) && Token(s, a.from, i)
    requires end == i + |a.from|
    ensures BothRewritten(s, a, b, i) == a.to + BothRewritten(s, a, b, end)
    ensures BothCount(s, a, b, i) == 1 + BothCount(s, a, b, end)
  {
    DroppedInside(s, a, b, a.from, i);
    BothDropped(s, a, b, i + 1, end);
  }

  lemma BothAtSecond(s: string, a: Edit, b: Edit, i: nat, end: nat)
    requires Compact(a.from) && Compact(b.from) && Token(s, b.from, i) && !Token(s, a.from, i)
    requires end == i + |b.from|
    ensures BothRewritten(s, a, b, i) == b.to + BothRewritten(s, a, b, end)
    ensures BothCount(s, a, b, i) == 1 + BothCount(s, a, b, end)
  {
    DroppedInside(s, a, b, b.from, i);
    BothDropped(s, a, b, i + 1, end);
  }

  lemma BothKept(s: string, a: Edit, b: Edit, i: nat)
    requires i < |s| && !Token(s, a.from, i) && !Token(s, b.from, i)
    requires !Covered(s, a.from, i) && !Covered(s, b.from, i)
    ensures BothRewritten(s, a, b, i) == [s[i]] + BothRewritten(s, a, b, i + 1)
    ensures BothCount(s, a, b, i) == BothCount(s, a, b, i + 1)
  {
  }

  lemma Onward(r: string, j: nat, head: string, rest: string)
    requires j <= |r| && r[j..] == head + rest
    ensures OccursAt(r, head, j) && r[j + |head|..] == rest
  {
    var z := r[j..];
    assert r[j..j + |head|] == z[..|head|] && r[j + |head|..] == z[|head|..];
  }

  /** Where the first pass replaced a token, its replacement stands. */
  lemma WrittenHere(s: string, a: Edit, r: string, i: nat, j: nat, i': nat, j': nat)
    requires i' == i + |a.from| && j' == j + |a.to|
    requires CompactEdit(a) && Aligned(s, a, r, i, j) && Token(s, a.from, i)
    ensures OccursAt(r, a.to, j) && r[j'..] == Rewritten(s, a.from, a.to, i')
  {
    RewrittenAtToken(s, a, i, i');
    Onward(r, j, a.to, Rewritten(s, a.from, a.to, i'));
  }

  lemma NotSeenHere(s: string, a: Edit, tok: string, i: nat)
    requires CompactEdit(a) && Unseen(a.to, tok) && i <= |s| && NoStraddle(s, a.from, i) && Token(s, a.from, i)
    ensures !Leads(Rewritten(s, a.from, a.to, i), tok)
  {
    var end := i + |a.from|;
    TokenAhead(s, a.from, i);
    assert s[i..][|a.from|..] == s[end..];
    RewrittenAtToken(s, a, i, end);
    StraddlesNothing(s, a.from, a.from, i);
    FollowsAsBefore(s, a, end);
  }

  /** No match of the second pass starts in what the first one wrote. */
  lemma NothingSeen(s: string, a: Edit, tok: string, r: string, i: nat, j: nat)
    requires CompactEdit(a) && Compact(tok) && Unseen(a.to, tok)
    requires Tracks(s, a, tok, r, i, j) && Token(s, a.from, i)
    ensures forall p: nat :: j <= p < j + |a.to| ==> !Token(r, tok, p)
  {
    NotSeenHere(s, a, tok, i);
    TokenAhead(r, tok, j);
    WrittenHere(s, a, r, i, j, i + |a.from|, j + |a.to|);
    NoTokenInside(r, a.to, tok, j);
  }

  lemma LastOf(s: string, tok: string, i: nat, end: nat)
    requires end == i + |tok| && Compact(tok) && OccursAt(s, tok, i)
    ensures 0 < end <= |s| && VersionChar(s[end - 1])
  {
    CharAt(s, tok, i, |tok| - 1);
  }

  lemma FirstAligned(s: string, a: Edit, r: string, i: nat, j: nat, i': nat, j': nat)
    requires i' == i + |a.from| && j' == j + |a.to|
    requires CompactEdit(a) && Aligned(s, a, r, i, j) && Token(s, a.from, i)
    ensures Aligned(s, a, r, i', j')
  {
    WrittenHere(s, a, r, i, j, i', j');
    LastOf(s, a.from, i, i');
    LastOf(r, a.to, j, j');
  }

  lemma FirstClear(s: string, a: Edit, tok: string, r: string, i: nat, j: nat, i': nat, j': nat)
    requires i' == i + |a.from| && j' == j + |a.to|
    requires CompactEdit(a) && Compact(tok) && Unseen(a.to, tok) && SameOrApart(a.from, tok)
    requires Tracks(s, a, tok, r, i, j) && Token(s, a.from, i)
    ensures Clear(s, a, tok, r, i', j')
  {
    StraddlesNothing(s, a.from, a.from, i);
    StraddlesNothing(s, a.from, tok, i);
    NothingSeen(s, a, tok, r, i, j);
    NoneCovered(r, tok, j, j');
  }

  lemma JoinTexts(s: string, a: Edit, b: Edit, r: string, i: nat, j: nat, i': nat, j': nat, head: string)
    requires i <= |s| && j <= |r| && i' <= |s| && j' <= |r| && TextDone(s, a, b, r, i', j')
    requires Rewritten(r, b.from, b.to, j) == head + Rewritten(r, b.from, b.to, j')
    requires BothRewritten(s, a, b, i) == head + BothRewritten(s, a, b, i')
    ensures TextDone(s, a, b, r, i, j)
  {
  }

  lemma KeptWhole(r: string, b: Edit, j: nat, j': nat)
    requires j <= j' <= |r| && NoStraddle(r, b.from, j) && forall p: nat :: j <= p < j' ==> !Token(r, b.from, p)
    ensures Rewritten(r, b.from, b.to, j) == r[j..j'] + Rewritten(r, b.from, b.to, j')
    ensures TokenCount(r, b.from, j) == TokenCount(r, b.from, j')
  {
    NoneCovered(r, b.from, j, j');
    KeptStretch(r, b.from, b.to, j, j');
  }

  lemma FirstOut(s: string, a: Edit, b: Edit, r: string, i: nat, j: nat, j': nat)
    requires j' == j + |a.to|
    requires CompactEdit(a) && Compact(b.from) && Unseen(a.to, b.from)
    requires Tracks(s, a, b.from, r, i, j) && Token(s, a.from, i) && j' <= |r|
    ensures Rewritten(r, b.from, b.to, j) == a.to + Rewritten(r, b.from, b.to, j')
    ensures TokenCount(r, b.from, j) == TokenCount(r, b.from, j')
  {
    WrittenHere(s, a, r, i, j, i + |a.from|, j');
    NothingSeen(s, a, b.from, r, i, j);
    KeptWhole(r, b, j, j');
  }

  lemma FirstDone(s: string, a: Edit, b: Edit, r: string, i: nat, j: nat, i': nat, j': nat)
    requires i' == i + |a.from| && j' == j + |a.to|
    requires CompactEdit(a) && Compact(b.from) && Unseen(a.to, b.from)
    requires Tracks(s, a, b.from, r, i, j) && Token(s, a.from, i) && j' <= |r|
    ensures TextDone(s, a, b, r, i', j') ==> TextDone(s, a, b, r, i, j)
    ensures Found(s, a, b, r, i, j) == 1 + Found(s, a, b, r, i', j')
    ensures BothCount(s, a, b, i) == 1 + BothCount(s, a, b, i')
  {
    RewrittenAtToken(s, a, i, i');
    FirstOut(s, a, b, r, i, j, j');
    BothAtFirst(s, a, b, i, i');
    if TextDone(s, a, b, r, i', j') {
      JoinTexts(s, a, b, r, i, j, i', j', a.to);
    }
  }

  /** Where the first pass replaces nothing, the second one finds exactly what stood there. */
  lemma SameMatch(s: string, a: Edit, tok: string, r: string, i: nat, j: nat)
    requires CompactEdit(a) && Compact(tok) && Tracks(s, a, tok, r, i, j) && i < |s| && !Token(s, a.from, i)
    ensures Token(r, tok, j) <==> Token(s, tok, i)
  {
    TokenAhead(s, tok, i);
    TokenAhead(r, tok, j);
    SeenAsBefore(s, a, tok, i);
  }

  lemma KeptHere(s: string, a: Edit, tok: string, i: nat, i': nat)
    requires i' == i + |tok| && Compact(a.from) && Compact(tok)
    requires NoStraddle(s, a.from, i) && !Token(s, a.from, i) && Token(s, tok, i)
    ensures Rewritten(s, a.from, a.to, i) == tok + Rewritten(s, a.from, a.to, i')
    ensures TokenCount(s, a.from, i) == TokenCount(s, a.from, i')
    ensures NoStraddle(s, a.from, i')
  {
    NoTokenInside(s, tok, a.from, i);
    NoneCovered(s, a.from, i, i');
    KeptStretch(s, a.from, a.to, i, i');
  }

  lemma SecondAligned(s: string, a: Edit, tok: string, r: string, i: nat, j: nat, i': nat, j': nat)
    requires i' == i + |tok| && j' == j + |tok|
    requires CompactEdit(a) && Compact(tok) && Aligned(s, a, r, i, j)
    requires NoStraddle(s, a.from, i) && !Token(s, a.from, i) && Token(s, tok, i)
    ensures Aligned(s, a, r, i', j')
  {
    KeptHere(s, a, tok, i, i');
    Onward(r, j, tok, Rewritten(s, a.from, a.to, i'));
    LastOf(s, tok, i, i');
    LastOf(r, tok, j, j');
  }

  lemma SecondClear(s: string, a: Edit, tok: string, r: string, i: nat, j: nat, i': nat, j': nat)
    requires i' == i + |tok| && j' == j + |tok|
    requires CompactEdit(a) && Compact(tok)
    requires Tracks(s, a, tok, r, i, j) && !Token(s, a.from, i) && Token(s, tok, i) && i < |s|
    ensures Clear(s, a, tok, r, i', j')
  {
    SameMatch(s, a, tok, r, i, j);
    KeptHere(s, a, tok, i, i');
    StraddlesNothing(s, tok, tok, i);
    StraddlesNothing(r, tok, tok, j);
  }

  lemma SecondOut(s: string, a: Edit, b: Edit, r: string, i: nat, j: nat, j': nat)
    requires j' == j + |b.from|
    requires CompactEdit(a) && Compact(b.from)
    requires Tracks(s, a, b.from, r, i, j) && !Token(s, a.from, i) && Token(s, b.from, i) && i < |s| && j' <= |r|
    ensures Rewritten(r, b.from, b.to, j) == b.to + Rewritten(r, b.from, b.to, j')
    ensures TokenCount(r, b.from, j) == 1 + TokenCount(r, b.from, j')
  {
    SameMatch(s, a, b.from, r, i, j);
    RewrittenAtToken(r, b, j, j');
  }

  lemma SecondDone(s: string, a: Edit, b: Edit, r: string, i: nat, j: nat, i': nat, j': nat)
    requires i' == i + |b.from| && j' == j + |b.from|
    requires CompactEdit(a) && Compact(b.from)
    requires Tracks(s, a, b.from, r, i, j) && !Token(s, a.from, i) && Token(s, b.from, i) && i < |s| && j' <= |r|
    ensures TextDone(s, a, b, r, i', j') ==> TextDone(s, a, b, r, i, j)
    ensures Found(s, a, b, r, i, j) == 1 + Found(s, a, b, r, i', j')
    ensures BothCount(s, a, b, i) == 1 + BothCount(s, a, b, i')
  {
    KeptHere(s, a, b.from, i, i');
    SecondOut(s, a, b, r, i, j, j');
    BothAtSecond(s, a, b, i, i');
    if TextDone(s, a, b, r, i', j') {
      JoinTexts(s, a, b, r, i, j, i', j', b.to);
    }
  }

  lemma OtherAligned(s: string, a: Edit, r: string, i: nat, j: nat, i': nat, j': nat)
    requires i' == i + 1 && j' == j + 1
    requires Aligned(s, a, r, i, j) && NoStraddle(s, a.from, i) && !Token(s, a.from, i) && i < |s|
    ensures Aligned(s, a, r, i', j') && r[j] == s[i]
  {
    NoneCovered(s, a.from, i, i');
    KeptOne(s, a.from, a.to, i);
    Onward(r, j, [s[i]], Rewritten(s, a.from, a.to, i'));
    assert r[j] == r[j..j'][0];
  }

  lemma OtherClear(s: string, a: Edit, tok: string, r: string, i: nat, j: nat, i': nat, j': nat)
    requires i' == i + 1 && j' == j + 1
    requires CompactEdit(a) && Compact(tok)
    requires Tracks(s, a, tok, r, i, j) && !Token(s, a.from, i) && !Token(s, tok, i) && i < |s|
    ensures Clear(s, a, tok, r, i', j')
  {
    SameMatch(s, a, tok, r, i, j);
  }

  lemma OtherOut(s: string, a: Edit, b: Edit, r: string, i: nat, j: nat, j': nat)
    requires j' == j + 1
    requires CompactEdit(a) && Compact(b.from)
    requires Tracks(s, a, b.from, r, i, j) && !Token(s, a.from, i) && !Token(s, b.from, i) && i < |s| && j' <= |r|
    ensures Rewritten(r, b.from, b.to, j) == [r[j]] + Rewritten(r, b.from, b.to, j')
    ensures TokenCount(r, b.from, j) == TokenCount(r, b.from, j')
  {
    SameMatch(s, a, b.from, r, i, j);
    NoneCovered(r, b.from, j, j');
    KeptOne(r, b.from, b.to, j);
  }

  lemma OtherIn(s: string, a: Edit, b: Edit, r: string, i: nat, j: nat, i': nat)
    requires i' == i + 1
    requires Tracks(s, a, b.from, r, i, j) && !Token(s, a.from, i) && !Token(s, b.from, i) && i < |s| && j < |r|
    ensures r[j] == s[i] && TokenCount(s, a.from, i) == TokenCount(s, a.from, i')
    ensures BothRewritten(s, a, b, i) == [s[i]] + BothRewritten(s, a, b, i')
    ensures BothCount(s, a, b, i) == BothCount(s, a, b, i')
  {
    NoneCovered(s, a.from, i, i');
    NoneCovered(s, b.from, i, i');
    OtherAligned(s, a, r, i, j, i', j + 1);
    BothKept(s, a, b, i);
  }

  lemma OtherDone(s: string, a: Edit, b: Edit, r: string, i: nat, j: nat, i': nat, j': nat)
    requires i' == i + 1 && j' == j + 1
    requires CompactEdit(a) && Compact(b.from)
    requires Tracks(s, a, b.from, r, i, j) && !Token(s, a.from, i) && !Token(s, b.from, i) && i < |s| && j' <= |r|
    ensures TextDone(s, a, b, r, i', j') ==> TextDone(s, a, b, r, i, j)
    ensures Found(s, a, b, r, i, j) == Found(s, a, b, r, i', j')
    ensures BothCount(s, a, b, i) == BothCount(s, a, b, i')
  {
    OtherIn(s, a, b, r, i, j, i');
    OtherOut(s, a, b, r, i, j, j');
    if TextDone(s, a, b, r, i', j') {
      JoinTexts(s, a, b, r, i, j, i', j', [s[i]]);
    }
  }

  lemma EndDone(s: string, a: Edit, b: Edit, r: string, j: nat)
    requires Tracks(s, a, b.from, r, |s|, j)
    ensures TextDone(s, a, b, r, |s|, j) && CountDone(s, a, b, r, |s|, j)
  {
    assert |r[j..]| == 0;
  }

  /** How far on in the file neither pass is inside an occurrence, and how far that is in what was written. */
  ghost function NextIn(s: string, a: Edit, tok: string, i: nat): nat {
    if Token(s, a.from, i) then i + |a.from| else if Token(s, tok, i) then i + |tok| else i + 1
  }

  ghost function NextOut(s: string, a: Edit, tok: string, i: nat, j: nat): nat {
    if Token(s, a.from, i) then j + |a.to| else if Token(s, tok, i) then j + |tok| else j + 1
  }

  lemma NextTracks(s: string, a: Edit, b: Edit, r: string, i: nat, j: nat, i': nat, j': nat)
    requires CompactEdit(a) && Compact(b.from) && Unseen(a.to, b.from) && SameOrApart(a.from, b.from)
    requires Tracks(s, a, b.from, r, i, j) && i < |s|
    requires i' == NextIn(s, a, b.from, i) && j' == NextOut(s, a, b.from, i, j)
    ensures Tracks(s, a, b.from, r, i', j')
  {
    if Token(s, a.from, i) {
      FirstAligned(s, a, r, i, j, i', j');
      FirstClear(s, a, b.from, r, i, j, i', j');
    } else if Token(s, b.from, i) {
      SecondAligned(s, a, b.from, r, i, j, i', j');
      SecondClear(s, a, b.from, r, i, j, i', j');
    } else {
      OtherAligned(s, a, r, i, j, i', j');
      OtherClear(s, a, b.from, r, i, j, i', j');
    }
  }

  lemma NextDone(s: string, a: Edit, b: Edit, r: string, i: nat, j: nat, i': nat, j': nat)
    requires CompactEdit(a) && Compact(b.from) && Unseen(a.to, b.from)
    requires Tracks(s, a, b.from, r, i, j) && i < |s|
    requires i' == NextIn(s, a, b.from, i) && j' == NextOut(s, a, b.from, i, j) && i' <= |s| && j' <= |r|
    requires TextDone(s, a, b, r, i', j') && CountDone(s, a, b, r, i', j')
    ensures TextDone(s, a, b, r, i, j) && CountDone(s, a, b, r, i, j)
  {
    if Token(s, a.from, i) {
      FirstDone(s, a, b, r, i, j, i', j');
    } else if Token(s, b.from, i) {
      SecondDone(s, a, b, r, i, j, i', j');
    } else {
      OtherDone(s, a, b, r, i, j, i', j');
    }
  }

  lemma {:induction false} SecondPassCompletes(s: string, a: Edit, b: Edit, r: string, i: nat, j: nat)
    requires CompactEdit(a) && Compact(b.from) && Unseen(a.to, b.from) && SameOrApart(a.from, b.from)
    requires Tracks(s, a, b.from, r, i, j)
    ensures TextDone(s, a, b, r, i, j) && CountDone(s, a, b, r, i, j)
    decreases |s| - i
  {
    if i == |s| {
      EndDone(s, a, b, r, j);
    } else {
      var i', j' := NextIn(s, a, b.from, i), NextOut(s, a, b.from, i, j);
      NextTracks(s, a, b, r, i, j, i', j');
      SecondPassCompletes(s, a, b, r, i', j');
      NextDone(s, a, b, r, i, j, i', j');
    }
  }

  /** Each pass is exact on its own input. */
  lemma PassesAreExact(s: string, a: Edit, b: Edit)
    requires Compact(a.from) && Compact(b.from)
    ensures var r := Rewritten(s, a.from, a.to, 0);
            TwoPasses(s, a, b) == (Rewritten(r, b.from, b.to, 0), TokenCount(s, a.from, 0) + TokenCount(r, b.from, 0))
  {
    GluedNeverHides(a.from);
    GluedNeverHides(b.from);
    ScanIsExact(s, a.from, a.to, 0);
    ScanIsExact(Rewritten(s, a.from, a.to, 0), b.from, b.to, 0);
  }

  /** Where the second pass sees nothing the first one wrote, the two make both edits in place. */
  lemma TwoPassesExact(s: string, a: Edit, b: Edit)
    requires CompactEdit(a) && Compact(b.from) && Unseen(a.to, b.from) && SameOrApart(a.from, b.from)
    ensures TwoPasses(s, a, b) == (BothRewritten(s, a, b, 0), BothCount(s, a, b, 0))
  {
    PassesAreExact(s, a, b);
    var r := Rewritten(s, a.from, a.to, 0);
    assert r[0..] == r;
    SecondPassCompletes(s, a, b, r, 0, 0);
  }

  // ---------------------------------------------------------------------------------------------
  // When the second pass sees what the first one wrote

  /** The written version is a match of the second scan, or begins one. */
  predicate SeenTwice(v: string, next: string) {
    if '.' in v then next == Lead(v) && |next| + 1 < |v| && v[|next| + 1] == '.'
    else TokenCount(next, v, 0) > 0
  }

  lemma SeenDotted(v: string, next: string, y: string)
    requires IsVersion(v) && IsVersion(next) && '.' in v && MayFollow(y) && Leads(next + y, Escape(v))
    ensures SeenTwice(v, next)
  {
    DottedTail(v);
    LeadSplits(v);
    var e, d, z := Escape(v), |Lead(v)|, next + y;
    assert forall k :: 0 <= k < |e| ==> e[k] == z[k];
    assert forall k :: 0 <= k < d ==> e[k] == Lead(v)[k] == v[k];
    assert e[d] == Tail(v)[0] && e[d + 1] == Tail(v)[1] && e[d + 2] == Tail(v)[2];
    assert forall k :: 0 <= k < |next| ==> z[k] == next[k] && VersionChar(z[k]);
    assert |next| <= d;
    assert z[|next|] == y[0] && e[|next|] == z[|next|];
    assert |next| == d;
    assert z[d + 1] == y[1] && z[d + 2] == y[2];
    assert next == z[..d] == e[..d] == Lead(v);
  }

  lemma SeenDotless(v: string, next: string, y: string)
    requires IsVersion(v) && IsVersion(next) && '.' !in v && MayFollow(y) && Leads(next + y, v)
    ensures SeenTwice(v, next)
  {
    DotlessEscape(v);
    var z := next + y;
    assert forall k :: 0 <= k < |v| ==> z[k] == v[k];
    assert y != "" ==> z[|next|] == y[0];
    assert |v| <= |next|;
    assert next[..|v|] == z[..|v|] == v;
    FollowsWithin(next, |v|, y);
    assert next[0..] == next;
    TokenAhead(next, v, 0);
    CountAtLeast(next, v, 0, 0);
  }

  lemma FollowsWithin(next: string, n: nat, y: string)
    requires IsVersion(next) && n <= |next| && MayFollow((next + y)[n..])
    ensures MayFollow(next[n..])
  {
    var rest := next[n..];
    assert (next + y)[n..] == rest + y;
    if rest != "" {
      assert rest[|rest| - 1] == next[|next| - 1] && rest[0] == next[n] && (rest + y)[0] == rest[0];
      if |rest| > 1 {
        assert (rest + y)[1] == rest[1];
      }
    }
  }

  lemma WrittenNotSeen(v: string, next: string, y: string)
    requires IsVersion(v) && IsVersion(next) && !SeenTwice(v, next) && MayFollow(y)
    ensures !Leads(next + y, Escape(v))
  {
    if Leads(next + y, Escape(v)) {
      if '.' in v {
        SeenDotted(v, next, y);
      } else {
        DotlessEscape(v);
        SeenDotless(v, next, y);
      }
    }
  }

  /** Both spellings in the file as it was, rewritten and counted. */
  ghost predicate ExactOn(s: string, v: string, next: string) {
    var a, b := Plain(v, next), Escaped(v, next);
    TwoPasses(s, a, b) == (BothRewritten(s, a, b, 0), BothCount(s, a, b, 0))
  }

  lemma SpellingsApart(v: string)
    requires IsVersion(v)
    ensures SameOrApart(v, Escape(v))
  {
    if '.' in v {
      DottedTail(v);
      assert v[|Lead(v)|] != Escape(v)[|Lead(v)|];
    } else {
      DotlessEscape(v);
    }
  }

  /** Unless the second pass sees what the first one wrote, both spellings are rewritten and counted exactly. */
  lemma VersionsExact(s: string, v: string, next: string)
    requires IsVersion(v) && IsVersion(next) && !SeenTwice(v, next)
    ensures ExactOn(s, v, next)
  {
    SpellingsAreCompact(v);
    SpellingsAreCompact(next);
    SpellingsApart(v);
    forall y | MayFollow(y) ensures !Leads(next + y, Escape(v)) {
      WrittenNotSeen(v, next, y);
    }
    TwoPassesExact(s, Plain(v, next), Escaped(v, next));
  }

  // ---------------------------------------------------------------------------------------------
  // And when it does, some file is miscounted

  /** The version, followed by what the new one needs behind it to look escaped. */
  function Misread(v: string): string
    requires |Lead(v)| <= |v|
  {
    v + Tail(v)
  }

  lemma MisreadIsGlued(v: string)
    requires IsVersion(v) && |Lead(v)| <= |v|
    ensures DigitsAreGlued(Misread(v)) && Escape(v) == Lead(v) + Tail(v)
  {
    EscapeKeepsLead(v);
    EscapeIsGlued(v);
    SpellingsAreCompact(v);
    var s, d := Misread(v), |Lead(v)|;
    if '.' in v {
      DottedTail(v);
    } else {
      DotlessEscape(v);
    }
    forall k: nat | 0 < k < |s| ensures GluedAt(s, k) {
      if k > |v| {
        assert GluedAt(Escape(v), d + (k - |v|));
      } else if k < |v| {
        assert GluedAt(v, k);
      }
    }
  }

  lemma NoneLater(s: string, tok: string)
    requires DigitsAreGlued(s) && Compact(tok)
    ensures forall p: nat :: 0 < p <= |s| ==> !Token(s, tok, p)
  {
    forall p: nat | 0 < p <= |s| ensures !Token(s, tok, p) {
      StartsWithDigit(s, tok, p);
      GluedThere(s, p);
    }
  }

  lemma {:induction false} NoneToCount(s: string, a: Edit, b: Edit, i: nat)
    requires i <= |s| && forall p: nat :: i <= p < |s| ==> !Token(s, a.from, p) && !Token(s, b.from, p)
    ensures BothCount(s, a, b, i) == 0
    decreases |s| - i
  {
    if i < |s| {
      NoneToCount(s, a, b, i + 1);
    }
  }

  lemma MisreadStarts(v: string, next: string)
    requires IsVersion(v) && SeenTwice(v, next) && |Lead(v)| <= |v|
    ensures Token(Misread(v), v, 0)
  {
    var s := Misread(v);
    if '.' in v {
      DottedTail(v);
    } else {
      DotlessEscape(v);
    }
    assert s[0..] == s && s[..|v|] == v && s[|v|..] == Tail(v);
    TokenAhead(s, v, 0);
  }

  lemma MisreadOnce(v: string, next: string)
    requires IsVersion(v) && SeenTwice(v, next) && |Lead(v)| <= |v|
    ensures BothCount(Misread(v), Plain(v, next), Escaped(v, next), 0) == 1
  {
    var s := Misread(v);
    SpellingsAreCompact(v);
    MisreadIsGlued(v);
    MisreadStarts(v, next);
    NoneLater(s, v);
    NoneLater(s, Escape(v));
    NoneToCount(s, Plain(v, next), Escaped(v, next), 1);
  }

  lemma MisreadWritten(v: string, next: string)
    requires IsVersion(v) && SeenTwice(v, next) && |Lead(v)| <= |v|
    ensures Rewritten(Misread(v), v, next, 0) == next + Tail(v) && TokenCount(Misread(v), v, 0) >= 1
  {
    var s, n := Misread(v), |v|;
    SpellingsAreCompact(v);
    MisreadIsGlued(v);
    MisreadStarts(v, next);
    RewrittenAtToken(s, Plain(v, next), 0, n);
    StraddlesNothing(s, v, v, 0);
    NoneLater(s, v);
    NoneCovered(s, v, n, |s|);
    KeptStretch(s, v, next, n, |s|);
    assert s[n..|s|] == Tail(v);
  }

  lemma MisreadSeen(v: string, next: string)
    requires IsVersion(v) && SeenTwice(v, next) && |Lead(v)| <= |v|
    ensures TokenCount(next + Tail(v), Escape(v), 0) >= 1
  {
    EscapeKeepsLead(v);
    if '.' in v {
      DottedTail(v);
      assert Escape(v)[0..|Escape(v)|] == Escape(v);
      CountAtLeast(Escape(v), Escape(v), 0, 0);
    } else {
      DotlessEscape(v);
      assert next + "" == next;
    }
  }

  /** A file with one occurrence that is counted twice, as "3" is when version 3 is replaced by itself. */
  lemma CountedTwice(v: string, next: string)
    requires IsVersion(v) && SeenTwice(v, next)
    ensures |Lead(v)| <= |v|
    ensures var s, a, b := Misread(v), Plain(v, next), Escaped(v, next);
            BothCount(s, a, b, 0) == 1 && TwoPasses(s, a, b).1 >= 2
  {
    LeadSplits(v);
    SpellingsAreCompact(v);
    MisreadOnce(v, next);
    MisreadWritten(v, next);
    MisreadSeen(v, next);
    PassesAreExact(Misread(v), Plain(v, next), Escaped(v, next));
  }

  /** No two dots in a row. */
  predicate NoEmptyPart(v: string) {
    forall k :: 0 < k < |v| && v[k] == '.' ==> v[k - 1] != '.'
  }

  /**
   The two passes are exact on every file if and only if the second never sees what the first wrote:
   for a version without empty parts, if it has a dot or does not stand alone in the new one.
   */
  lemma TwoPassesExactIff(v: string, next: string)
    requires IsVersion(v) && IsVersion(next)
    ensures (forall s :: ExactOn(s, v, next)) <==> !SeenTwice(v, next)
    ensures NoEmptyPart(v) ==>
              ((forall s :: ExactOn(s, v, next)) <==> '.' in v || TokenCount(next, v, 0) == 0)
  {
    if SeenTwice(v, next) {
      CountedTwice(v, next);
      assert !ExactOn(Misread(v), v, next);
    } else {
      forall s ensures ExactOn(s, v, next) {
        VersionsExact(s, v, next);
      }
    }
    LeadSplits(v);
  }

  /** The occurrences of a version with a dot are the plain ones and the escaped ones. */
  lemma {:induction false} SpellingsAddUp(s: string, v: string, next: string, i: nat)
    requires IsVersion(v) && i <= |s|
    ensures BothCount(s, Plain(v, next), Escaped(v, next), i) ==
            TokenCount(s, v, i) + if '.' in v then TokenCount(s, Escape(v), i) else 0
    decreases |s| - i
  {
    if i < |s| {
      SpellingsAddUp(s, v, next, i + 1);
      OneSpelling(s, v, i);
    }
  }

  lemma OneSpelling(s: string, v: string, i: nat)
    requires IsVersion(v)
    ensures '.' in v ==> !(Token(s, v, i) && Token(s, Escape(v), i))
    ensures '.' !in v ==> Escape(v) == v
  {
    if '.' in v {
      DottedTail(v);
      var d := |Lead(v)|;
      CharAt(s, v, i, d);
      CharAt(s, Escape(v), i, d);
    } else {
      DotlessEscape(v);
    }
  }

  // ---------------------------------------------------------------------------------------------
  // The in-memory tree

  class Tree {
    const disk: map<string, string>
    var original: map<string, string>
    var current: map<string, string>

    constructor (disk: map<string, string>)
      ensures this.disk == disk && original == map[] && current == map[]
    {
      this.disk := disk;
      original, current := map[], map[];
    }

    /** What a read of `rel` yields: the edited text if there is one, the file otherwise. */
    ghost function Text(rel: string): (r: Option<string>)
      reads this
    {
      if rel in current then Some(current[rel]) else if rel in disk then Some(disk[rel]) else None
    }

    method Read(rel: string) returns (r: Result<string>)
      modifies this
      ensures r.Ok? <==> old(Text(rel)).Some?
      ensures r.Ok? ==> r.value == old(Text(rel)).value && rel in current
      ensures forall f :: Text(f) == old(Text(f))
      ensures old(current.Keys) <= current.Keys
    {
      if rel in current {
        return Ok(current[rel]);
      }
      if rel !in disk {
        return Err("no such file");
      }
      original := original[rel := disk[rel]];
      current := current[rel := disk[rel]];
      return Ok(disk[rel]);
    }

    /**
     Rewrites both spellings of `version` in one file. Every other file, and on failure this one
     too, reads as before. Unless the second pass sees what the first one wrote, a version is
     rewritten and counted exactly in the file as it was.
     */
    method ReplaceToken(rel: string, version: string, next: string, lo: nat) returns (r: Result<nat>)
      modifies this
      ensures forall f :: f != rel || r.Err? ==> Text(f) == old(Text(f))
      ensures old(Text(rel)).None? ==> r.Err?
      ensures old(Text(rel)).Some? ==>
                var both := TwoPasses(old(Text(rel)).value, Plain(version, next), Escaped(version, next));
                && (r.Ok? <==> both.1 >= lo)
                && (r.Ok? ==> r.value == both.1 && Text(rel) == Some(both.0))
      ensures old(Text(rel)).Some? && IsVersion(version) && IsVersion(next) && !SeenTwice(version, next) ==>
                var text, a, b := old(Text(rel)).value, Plain(version, next), Escaped(version, next);
                && (r.Ok? <==> BothCount(text, a, b, 0) >= lo)
                && (r.Ok? ==> r.value == BothCount(text, a, b, 0) && Text(rel) == Some(BothRewritten(text, a, b, 0)))
      ensures r.Ok? && IsVersion(version) ==>
                && old(Text(rel)).Some?
                && var text := old(Text(rel)).value;
                   var plain := Rewritten(text, version, next, 0);
                   && Text(rel) == Some(Rewritten(plain, Escape(version), Escape(next), 0))
                   && r.value == TokenCount(text, version, 0) + TokenCount(plain, Escape(version), 0)
    {
      var read := Read(rel);
      if read.Err? {
        return Err(read.error);
      }
      var content, plain := ReplaceStandalone(read.value, version, next);
      var escaped;
      content, escaped := ReplaceStandalone(content, Escape(version), Escape(next));
      if IsVersion(version) {
        VersionsNeverHide(version);
        if IsVersion(next) && !SeenTwice(version, next) {
          VersionsExact(read.value, version, next);
        }
      }
      if plain + escaped < lo {
        return Err("too few occurrences");
      }
      current := current[rel := content];
      return Ok(plain + escaped);
    }
  }
}
