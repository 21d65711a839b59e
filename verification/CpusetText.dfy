/**
 Exactly which texts name a cpuset and which ids they name, apart from how the parser finds out: white
 space around a comma-separated list of digits and digit ranges.
 */
module CpusetText {
  import opened Common
  import opened Cpuset

  // ---------------------------------------------------------------------------------------------
  // White space at the ends

  /** White space and line ends of ECMAScript. */
  const SPACES: set<char> := {
    '\t', '\n', '\U{B}', '\U{C}', '\r', ' ', '\U{A0}', '\U{1680}', '\U{2000}', '\U{2001}', '\U{2002}', '\U{2003}',
    '\U{2004}', '\U{2005}', '\U{2006}', '\U{2007}', '\U{2008}', '\U{2009}', '\U{200A}', '\U{2028}', '\U{2029}',
    '\U{202F}', '\U{205F}', '\U{3000}', '\U{FEFF}'}

  lemma SpacesAre(c: char)
    ensures IsSpace(c) <==> c in SPACES
  {
  }

  predicate Blank(s: string) {
    forall i :: 0 <= i < |s| ==> s[i] in SPACES
  }

  /** No white space at either end. */
  predicate Tight(s: string) {
    s != "" ==> s[0] !in SPACES && s[|s| - 1] !in SPACES
  }

  lemma {:induction false} LeftTrimmed(s: string) returns (pad: string)
    ensures s == pad + TrimLeft(s) && Blank(pad)
    ensures TrimLeft(s) != "" ==> TrimLeft(s)[0] !in SPACES
  {
    if s != "" && IsSpace(s[0]) {
      SpacesAre(s[0]);
      var rest := LeftTrimmed(s[1..]);
      pad := [s[0]] + rest;
    } else {
      pad := "";
      if s != "" {
        SpacesAre(s[0]);
      }
    }
  }

  lemma {:induction false} RightTrimmed(s: string) returns (pad: string)
    ensures s == TrimRight(s) + pad && Blank(pad)
    ensures TrimRight(s) != "" ==> TrimRight(s)[|TrimRight(s)| - 1] !in SPACES
  {
    if s != "" && IsSpace(s[|s| - 1]) {
      SpacesAre(s[|s| - 1]);
      var rest := RightTrimmed(s[..|s| - 1]);
      pad := rest + [s[|s| - 1]];
    } else {
      pad := "";
      if s != "" {
        SpacesAre(s[|s| - 1]);
      }
    }
  }

  /** Trimming takes white space off both ends and leaves none there. */
  lemma TrimIsExact(s: string) returns (left: string, right: string)
    ensures s == left + Trim(s) + right && Blank(left) && Blank(right) && Tight(Trim(s))
  {
    left := LeftTrimmed(s);
    right := RightTrimmed(TrimLeft(s));
    var t := TrimLeft(s);
    if Trim(s) != "" {
      assert t[0] == Trim(s)[0];
    }
    assert left + (Trim(s) + right) == left + Trim(s) + right;
  }

  // ---------------------------------------------------------------------------------------------
  // Parts between commas

  lemma {:induction false} SplitIsExact(s: string)
    ensures Join(Split(s)) == s && forall i :: 0 <= i < |Split(s)| ==> NoComma(Split(s)[i])
  {
    if s != "" {
      var n := |s| - 1;
      var rest := Split(s[..n]);
      SplitIsExact(s[..n]);
      assert s == s[..n] + [s[n]];
      if s[n] == ',' {
        assert (rest + [""])[..|rest|] == rest;
        assert Join(rest) + "," + "" == s;
      } else {
        JoinGrows(rest, [s[n]]);
      }
    }
  }

  /** The part joined on behind a text, or alone. */
  function JoinedOn(parts: seq<string>, part: string): string {
    if parts == [] then part else Join(parts) + "," + part
  }

  lemma JoinSnoc(parts: seq<string>, part: string)
    ensures Join(parts + [part]) == JoinedOn(parts, part)
  {
    assert (parts + [part])[..|parts|] == parts;
  }

  lemma JoinedGrows(parts: seq<string>, part: string, more: string)
    ensures JoinedOn(parts, part + more) == JoinedOn(parts, part) + more
  {
    if parts != [] {
      assert Join(parts) + "," + (part + more) == Join(parts) + "," + part + more;
    }
  }

  lemma JoinGrows(parts: seq<string>, more: string)
    requires parts != []
    ensures Join(parts[..|parts| - 1] + [parts[|parts| - 1] + more]) == Join(parts) + more
  {
    var before, part := parts[..|parts| - 1], parts[|parts| - 1];
    assert parts == before + [part];
    JoinSnoc(before, part + more);
    JoinSnoc(before, part);
    JoinedGrows(before, part, more);
  }

  // ---------------------------------------------------------------------------------------------
  // One part

  /** The part is a number, or two with a dash between them. */
  ghost predicate Denotes(part: string, r: Range) {
    || (part != "" && AllDigits(part) && r == Range(Value(part), Value(part)))
    || exists k :: 0 < k < |part| - 1 && DashAt(part, k, r)
  }

  predicate DashAt(part: string, k: nat, r: Range)
    requires k < |part|
  {
    && part[k] == '-' && AllDigits(part[..k]) && AllDigits(part[k + 1..])
    && r == Range(Value(part[..k]), Value(part[k + 1..]))
  }

  lemma DigitsEnd(part: string, k: nat)
    requires k <= |part| && AllDigits(part[..k]) && (k < |part| ==> !IsDigit(part[k]))
    ensures LeadingDigits(part) == k
  {
    assert part == part[..k] + part[k..];
    LeadingDigitsOf(part[..k], part[k..]);
  }

  /** A part is read as a range exactly if it denotes one, not backwards and within the safe integers. */
  lemma PartIff(part: string, r: Range)
    ensures ParsePart(part) == Some(r) <==> Denotes(part, r) && r.first <= r.last <= MAX_SAFE_INTEGER
  {
    if Denotes(part, r) {
      if part != "" && AllDigits(part) {
        assert part[..|part|] == part;
        DigitsEnd(part, |part|);
      } else {
        var k :| 0 < k < |part| - 1 && DashAt(part, k, r);
        DigitsEnd(part, k);
      }
    }
    if ParsePart(part) == Some(r) {
      var n := LeadingDigits(part);
      if n == |part| {
        assert part[..n] == part;
      } else {
        assert DashAt(part, n, r);
      }
    }
  }

  // ---------------------------------------------------------------------------------------------
  // The whole text

  /** The id is in a range the part denotes. */
  ghost predicate Names(part: string, c: nat) {
    exists r :: Denotes(part, r) && r.first <= c <= r.last
  }

  /** The part denotes a range of safe integers that is not backwards. */
  ghost predicate Reads(part: string) {
    exists r :: Denotes(part, r) && r.first <= r.last <= MAX_SAFE_INTEGER
  }

  ghost predicate AllRead(parts: seq<string>) {
    forall i :: 0 <= i < |parts| ==> Reads(parts[i])
  }

  predicate InRange(r: Range, c: nat) {
    r.first <= c <= r.last
  }

  lemma {:induction false} CoveredBy(rs: seq<Range>, c: nat) returns (i: nat)
    requires (forall j :: 0 <= j < |rs| ==> rs[j].first <= rs[j].last) && c in Covered(rs)
    ensures i < |rs| && InRange(rs[i], c)
  {
    var n := |rs| - 1;
    SpanHas(rs[n].first, rs[n].last, c);
    if InRange(rs[n], c) {
      i := n;
    } else {
      i := CoveredBy(rs[..n], c);
    }
  }

  lemma {:induction false} RangeIsCovered(rs: seq<Range>, c: nat, i: nat)
    requires (forall j :: 0 <= j < |rs| ==> rs[j].first <= rs[j].last) && i < |rs| && InRange(rs[i], c)
    ensures c in Covered(rs)
  {
    var n := |rs| - 1;
    if i == n {
      SpanHas(rs[n].first, rs[n].last, c);
    } else {
      RangeIsCovered(rs[..n], c, i);
    }
  }

  lemma SpanHas(first: nat, last: nat, c: nat)
    requires first <= last
    ensures c in Span(first, last) <==> first <= c <= last
  {
    var ids := Span(first, last);
    if first <= c <= last {
      assert ids[c - first] == c;
    }
  }

  lemma {:induction false} Collected(ps: seq<Option<Range>>)
    ensures Collect(ps).Some? <==> forall i :: 0 <= i < |ps| ==> ps[i].Some?
    ensures Collect(ps).Some? ==>
              |Collect(ps).value| == |ps| && forall i :: 0 <= i < |ps| ==> ps[i] == Some(Collect(ps).value[i])
  {
    if ps != [] {
      Collected(ps[..|ps| - 1]);
    }
  }

  lemma ReadsIff(part: string)
    ensures ParsePart(part).Some? <==> Reads(part)
    ensures ParsePart(part).Some? ==>
              forall c: nat :: Names(part, c) <==> ParsePart(part).value.first <= c <= ParsePart(part).value.last
  {
    if ParsePart(part).Some? {
      PartIff(part, ParsePart(part).value);
      forall r | Denotes(part, r) ensures r == ParsePart(part).value {
        OneMeaning(part, r, ParsePart(part).value);
      }
    }
    if r :| Denotes(part, r) && r.first <= r.last <= MAX_SAFE_INTEGER {
      PartIff(part, r);
    }
  }

  lemma DigitsBefore(part: string, k: nat, i: nat)
    ensures i < k <= |part| && AllDigits(part[..k]) ==> IsDigit(part[i])
  {
    if i < k <= |part| {
      assert part[..k][i] == part[i];
    }
  }

  lemma OneMeaning(part: string, r: Range, r': Range)
    requires Denotes(part, r) && Denotes(part, r')
    ensures r == r'
  {
    if !AllDigits(part) {
      var k :| 0 < k < |part| - 1 && DashAt(part, k, r);
      var j :| 0 < j < |part| - 1 && DashAt(part, j, r');
      DigitsBefore(part, j, k);
      DigitsBefore(part, k, j);
    }
  }

  /**
   A text is accepted if and only if, trimmed, each of its parts between commas reads as a range; the
   ids are then exactly those the parts name, in increasing order.
   */
  lemma ParsedIff(spec: string)
    ensures var parts := Split(Trim(spec));
            && (Parsed(spec).Some? <==> AllRead(parts))
            && (Parsed(spec).Some? ==>
                  && Increasing(Parsed(spec).value)
                  && forall c :: c in Parsed(spec).value <==> exists i :: 0 <= i < |parts| && Names(parts[i], c))
  {
    var parts := Split(Trim(spec));
    AllReadIff(parts);
    if Trim(spec) == "" {
      NothingIsEmpty();
      assert !Reads(parts[0]);
    } else if Parsed(spec).Some? {
      NamesAreIds(parts, SortIds(Covered(Collect(ParseEach(parts)).value)));
    }
  }

  lemma AllReadIff(parts: seq<string>)
    ensures Collect(ParseEach(parts)).Some? <==> AllRead(parts)
  {
    var ps := ParseEach(parts);
    Collected(ps);
    forall i | 0 <= i < |parts| ensures ps[i].Some? <==> Reads(parts[i]) {
      ReadsIff(parts[i]);
    }
    if AllRead(parts) {
      assert forall i :: 0 <= i < |ps| ==> ps[i].Some?;
    }
  }

  lemma NamesAreIds(parts: seq<string>, ids: seq<nat>)
    requires Collect(ParseEach(parts)).Some? && ids == SortIds(Covered(Collect(ParseEach(parts)).value))
    ensures Increasing(ids) && forall c :: c in ids <==> exists i :: 0 <= i < |parts| && Names(parts[i], c)
  {
    var ps := ParseEach(parts);
    Collected(ps);
    var rs := Collect(ps).value;
    SortIdsSorts(Covered(rs));
    forall c ensures c in ids <==> exists i :: 0 <= i < |parts| && Names(parts[i], c) {
      NamedIffCovered(parts, rs, c);
    }
  }

  lemma NothingIsEmpty()
    ensures !Reads("")
  {
  }

  lemma NamedIffCovered(parts: seq<string>, rs: seq<Range>, c: nat)
    requires |parts| == |rs| && forall i :: 0 <= i < |parts| ==> ParsePart(parts[i]) == Some(rs[i])
    ensures c in Covered(rs) <==> exists i :: 0 <= i < |parts| && Names(parts[i], c)
  {
    forall i | 0 <= i < |parts| ensures rs[i].first <= rs[i].last && (Names(parts[i], c) <==> InRange(rs[i], c)) {
      ReadsIff(parts[i]);
    }
    if c in Covered(rs) {
      var i := CoveredBy(rs, c);
      assert Names(parts[i], c);
    }
    if i :| 0 <= i < |parts| && Names(parts[i], c) {
      RangeIsCovered(rs, c, i);
    }
  }
}
