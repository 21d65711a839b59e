/**
 The cpuset printer and parser of apps/action-runner-agent/cpuset.ts: CPU ids to text such as
 `0-3,8`, and back.
 */
module Cpuset {
  import opened Common

  // ---------------------------------------------------------------------------------------------
  // Sorted ids without repetition: [...new Set(cores)].sort()

  ghost predicate Increasing(ids: seq<nat>) {
    forall i, j :: 0 <= i < j < |ids| ==> ids[i] < ids[j]
  }

  function InsertId(x: nat, ids: seq<nat>): seq<nat> {
    if ids == [] || x < ids[0] then [x] + ids
    else if x == ids[0] then ids
    else [ids[0]] + InsertId(x, ids[1..])
  }

  function SortIds(cores: seq<nat>): seq<nat> {
    if cores == [] then [] else InsertId(cores[0], SortIds(cores[1..]))
  }

  lemma {:induction false} InsertIdAdds(x: nat, ids: seq<nat>)
    ensures forall c :: c in InsertId(x, ids) <==> c == x || c in ids
  {
    if ids != [] && x > ids[0] {
      InsertIdAdds(x, ids[1..]);
      assert ids == [ids[0]] + ids[1..];
    }
  }

  lemma {:induction false} InsertIdKeepsOrder(x: nat, ids: seq<nat>)
    requires Increasing(ids)
    ensures Increasing(InsertId(x, ids))
  {
    if ids != [] && x > ids[0] {
      InsertIdKeepsOrder(x, ids[1..]);
      var tail := InsertId(x, ids[1..]);
      forall j | 0 <= j < |tail| ensures ids[0] < tail[j] {
        InsertIdAdds(x, ids[1..]);
        assert tail[j] in tail;
      }
    }
  }

  /** The sorted list is strictly increasing and has exactly the given ids. */
  lemma {:induction false} SortIdsSorts(cores: seq<nat>)
    ensures Increasing(SortIds(cores))
    ensures forall c :: c in SortIds(cores) <==> c in cores
  {
    if cores != [] {
      SortIdsSorts(cores[1..]);
      InsertIdAdds(cores[0], SortIds(cores[1..]));
      InsertIdKeepsOrder(cores[0], SortIds(cores[1..]));
      assert cores == [cores[0]] + cores[1..];
    }
  }

  lemma TailElements(a: seq<nat>)
    requires Increasing(a) && a != []
    ensures forall c :: c in a[1..] <==> c in a && c != a[0]
    ensures forall c :: c in a ==> a[0] <= c
  {
    assert a == [a[0]] + a[1..];
    forall c | c in a[1..] ensures a[0] < c {
      var k :| 0 <= k < |a[1..]| && a[1..][k] == c;
      assert a[k + 1] == c;
    }
  }

  /** A strictly increasing list is determined by its elements. */
  lemma {:induction false} IncreasingIsUnique(a: seq<nat>, b: seq<nat>)
    requires Increasing(a) && Increasing(b)
    requires forall c :: c in a <==> c in b
    ensures a == b
  {
    assert b != [] ==> b[0] in b;
    if a != [] {
      assert a[0] in b;
      TailElements(a);
      TailElements(b);
      assert b[0] in a;
      IncreasingIsUnique(a[1..], b[1..]);
      assert a == [a[0]] + a[1..] && b == [b[0]] + b[1..];
    }
  }

  // ---------------------------------------------------------------------------------------------
  // Ranges

  datatype Range = Range(first: nat, last: nat)

  function Span(first: nat, last: nat): (ids: seq<nat>)
    requires first <= last + 1
    ensures |ids| == last + 1 - first && forall i :: 0 <= i < |ids| ==> ids[i] == first + i
    decreases last + 1 - first
  {
    if first == last + 1 then [] else [first] + Span(first + 1, last)
  }

  ghost predicate Proper(rs: seq<Range>) {
    forall i :: 0 <= i < |rs| ==> rs[i].first <= rs[i].last
  }

  /** The ids the ranges cover, in the order they name them. */
  function Covered(rs: seq<Range>): seq<nat> {
    if rs == [] then []
    else
      var r := rs[|rs| - 1];
      Covered(rs[..|rs| - 1]) + if r.first <= r.last then Span(r.first, r.last) else []
  }

  /** Strictly increasing and maximal: between two ranges at least one id is missing. */
  ghost predicate Maximal(rs: seq<Range>) {
    forall i, j :: 0 <= i < j < |rs| ==> rs[i].last + 1 < rs[j].first
  }

  function Extend(rs: seq<Range>, x: nat): seq<Range> {
    if rs != [] && rs[|rs| - 1].last + 1 == x
    then rs[..|rs| - 1] + [Range(rs[|rs| - 1].first, x)]
    else rs + [Range(x, x)]
  }

  function Ranges(ids: seq<nat>): seq<Range> {
    if ids == [] then [] else Extend(Ranges(ids[..|ids| - 1]), ids[|ids| - 1])
  }

  lemma CoveredSnoc(rs: seq<Range>, r: Range)
    requires r.first <= r.last
    ensures Covered(rs + [r]) == Covered(rs) + Span(r.first, r.last)
  {
    assert (rs + [r])[..|rs|] == rs;
  }

  lemma ExtendCovers(rs: seq<Range>, x: nat)
    requires Proper(rs)
    ensures Covered(Extend(rs, x)) == Covered(rs) + [x]
  {
    var n := |rs| - 1;
    if rs != [] && rs[n].last + 1 == x {
      var r := rs[n];
      assert rs == rs[..n] + [r];
      CoveredSnoc(rs[..n], r);
      CoveredSnoc(rs[..n], Range(r.first, x));
      assert Span(r.first, x) == Span(r.first, r.last) + [x];
    } else {
      CoveredSnoc(rs, Range(x, x));
      assert Span(x, x) == [x];
    }
  }

  lemma ExtendIsMaximal(rs: seq<Range>, x: nat)
    requires Proper(rs) && Maximal(rs) && (rs != [] ==> rs[|rs| - 1].last < x)
    ensures Maximal(Extend(rs, x)) && Extend(rs, x)[|Extend(rs, x)| - 1].last == x
  {
    forall i | 0 <= i < |rs| ensures rs[i].last <= rs[|rs| - 1].last {
      if i < |rs| - 1 {
        assert rs[i].last + 1 < rs[|rs| - 1].first <= rs[|rs| - 1].last;
      }
    }
  }

  /** The ranges cover exactly the ids, and cannot be merged or reordered. */
  ghost predicate ExactRanges(rs: seq<Range>, ids: seq<nat>) {
    && Proper(rs) && Maximal(rs) && Covered(rs) == ids
    && (ids == [] <==> rs == [])
    && (ids != [] ==> rs[|rs| - 1].last == ids[|ids| - 1])
  }

  lemma ExtendIsExact(rs: seq<Range>, ids: seq<nat>, x: nat, rs': seq<Range>, ids': seq<nat>)
    requires ExactRanges(rs, ids) && (ids != [] ==> ids[|ids| - 1] < x)
    requires rs' == Extend(rs, x) && ids' == ids + [x]
    ensures ExactRanges(rs', ids')
  {
    ExtendCovers(rs, x);
    ExtendIsMaximal(rs, x);
  }

  lemma RangesSnoc(ids: seq<nat>, x: nat)
    ensures Ranges(ids + [x]) == Extend(Ranges(ids), x)
  {
    assert (ids + [x])[..|ids|] == ids;
  }

  lemma {:induction false} RangesAreExact(ids: seq<nat>)
    requires Increasing(ids)
    ensures ExactRanges(Ranges(ids), ids)
  {
    if ids != [] {
      var before, x := ids[..|ids| - 1], ids[|ids| - 1];
      RangesAreExact(before);
      assert ids == before + [x];
      RangesSnoc(before, x);
      ExtendIsExact(Ranges(before), before, x, Ranges(ids), ids);
    }
  }

  // ---------------------------------------------------------------------------------------------
  // Text

  predicate AllDigits(s: string) {
    forall i :: 0 <= i < |s| ==> IsDigit(s[i])
  }

  function Digit(d: nat): char
    requires d < 10
  {
    '0' + d as char
  }

  function Decimal(n: nat): string {
    if n < 10 then [Digit(n)] else Decimal(n / 10) + [Digit(n % 10)]
  }

  /** Number(s) of a digit string, before rounding. */
  function Value(s: string): nat
    requires AllDigits(s)
  {
    if s == "" then 0 else Value(s[..|s| - 1]) * 10 + (s[|s| - 1] as nat - '0' as nat)
  }

  lemma {:induction false} DecimalReadsBack(n: nat)
    ensures Decimal(n) != "" && AllDigits(Decimal(n)) && Value(Decimal(n)) == n
  {
    if n < 10 {
      assert Decimal(n)[..0] == "";
    } else {
      DecimalReadsBack(n / 10);
      var s := Decimal(n);
      assert s[..|s| - 1] == Decimal(n / 10);
    }
  }

  function RangeText(r: Range): string {
    if r.first == r.last then Decimal(r.first) else Decimal(r.first) + "-" + Decimal(r.last)
  }

  function Join(parts: seq<string>): string {
    if parts == [] then ""
    else if |parts| == 1 then parts[0]
    else Join(parts[..|parts| - 1]) + "," + parts[|parts| - 1]
  }

  function Texts(rs: seq<Range>): (parts: seq<string>)
    ensures |parts| == |rs| && forall i :: 0 <= i < |rs| ==> parts[i] == RangeText(rs[i])
  {
    if rs == [] then [] else Texts(rs[..|rs| - 1]) + [RangeText(rs[|rs| - 1])]
  }

  function Printed(cores: seq<nat>): string {
    Join(Texts(Ranges(SortIds(cores))))
  }

  lemma TextsSnoc(rs: seq<Range>, r: Range)
    ensures Texts(rs + [r]) == Texts(rs) + [RangeText(r)]
  {
    assert (rs + [r])[..|rs|] == rs;
  }

  lemma RunStarts(sorted: seq<nat>, k: nat)
    requires Increasing(sorted) && k < |sorted| && (k > 0 ==> sorted[k] > sorted[k - 1] + 1)
    ensures Ranges(sorted[..k + 1]) == Ranges(sorted[..k]) + [Range(sorted[k], sorted[k])]
  {
    assert sorted[..k + 1][..k] == sorted[..k];
    RangesAreExact(sorted[..k]);
  }

  lemma RunGrows(sorted: seq<nat>, k: nat, before: seq<Range>, first: nat)
    requires k + 1 < |sorted| && sorted[k + 1] == sorted[k] + 1
    requires Ranges(sorted[..k + 1]) == before + [Range(first, sorted[k])]
    ensures Ranges(sorted[..k + 2]) == before + [Range(first, sorted[k + 1])]
  {
    assert sorted[..k + 2][..k + 1] == sorted[..k + 1];
    assert (before + [Range(first, sorted[k])])[..|before|] == before;
  }

  method FormatCpuset(cores: seq<nat>) returns (spec: string)
    ensures spec == Printed(cores)
  {
    SortIdsSorts(cores);
    spec := FormatSorted(SortIds(cores));
  }

  lemma TextsGrow(sorted: seq<nat>, start: nat, end: nat, r: Range)
    requires start <= end <= |sorted| && Ranges(sorted[..end]) == Ranges(sorted[..start]) + [r]
    ensures Texts(Ranges(sorted[..end])) == Texts(Ranges(sorted[..start])) + [RangeText(r)]
  {
    TextsSnoc(Ranges(sorted[..start]), r);
  }

  method FormatSorted(sorted: seq<nat>) returns (spec: string)
    requires Increasing(sorted)
    ensures spec == Join(Texts(Ranges(sorted)))
  {
    var parts: seq<string> := [];
    var index := 0;
    while index < |sorted|
      invariant index <= |sorted|
      invariant parts == Texts(Ranges(sorted[..index]))
      invariant 0 < index < |sorted| ==> sorted[index] > sorted[index - 1] + 1
    {
      var end, last := EndOfRun(sorted, index);
      TextsGrow(sorted, index, end + 1, Range(sorted[index], last));
      parts := parts + [RangeText(Range(sorted[index], last))];
      index := end + 1;
    }
    assert sorted[..index] == sorted;
    spec := JoinAll(parts);
  }

  /** The inner loop: from the first id of a run to its last. */
  method EndOfRun(sorted: seq<nat>, start: nat) returns (index: nat, last: nat)
    requires Increasing(sorted) && start < |sorted| && (start > 0 ==> sorted[start] > sorted[start - 1] + 1)
    ensures start <= index < |sorted|
    ensures index + 1 < |sorted| ==> sorted[index + 1] > sorted[index] + 1
    ensures Ranges(sorted[..index + 1]) == Ranges(sorted[..start]) + [Range(sorted[start], last)]
  {
    index, last := start, sorted[start];
    RunStarts(sorted, start);
    while index + 1 < |sorted| && sorted[index + 1] == last + 1
      invariant start <= index < |sorted| && sorted[index] == last
      invariant Ranges(sorted[..index + 1]) == Ranges(sorted[..start]) + [Range(sorted[start], last)]
      decreases |sorted| - index
    {
      RunGrows(sorted, index, Ranges(sorted[..start]), sorted[start]);
      index := index + 1;
      last := last + 1;
    }
  }

  /** parts.join(","). */
  method JoinAll(parts: seq<string>) returns (s: string)
    ensures s == Join(parts)
  {
    s := "";
    for i := 0 to |parts|
      invariant s == Join(parts[..i])
    {
      assert parts[..i + 1][..i] == parts[..i];
      s := if i == 0 then parts[0] else s + "," + parts[i];
    }
    assert parts[..|parts|] == parts;
  }

  // ---------------------------------------------------------------------------------------------
  // Parsing

  /** What String.prototype.trim removes. */
  predicate IsSpace(c: char) {
    var n := c as int;
    9 <= n <= 13 || n == 32 || n == 160 || n == 5760 || 8192 <= n <= 8202
    || n == 8232 || n == 8233 || n == 8239 || n == 8287 || n == 12288 || n == 65279
  }

  function TrimLeft(s: string): string {
    if s != "" && IsSpace(s[0]) then TrimLeft(s[1..]) else s
  }

  function TrimRight(s: string): string {
    if s != "" && IsSpace(s[|s| - 1]) then TrimRight(s[..|s| - 1]) else s
  }

  function Trim(s: string): string {
    TrimRight(TrimLeft(s))
  }

  /** s.split(","): the pieces between commas, at least one. */
  function Split(s: string): (parts: seq<string>)
    ensures parts != []
  {
    if s == "" then [""]
    else
      var n := |s| - 1;
      var rest := Split(s[..n]);
      if s[n] == ',' then rest + [""] else rest[..|rest| - 1] + [rest[|rest| - 1] + [s[n]]]
  }

  function LeadingDigits(s: string): (n: nat)
    ensures n <= |s| && AllDigits(s[..n]) && (n < |s| ==> !IsDigit(s[n]))
  {
    if s == "" || !IsDigit(s[0]) then 0
    else
      var n := LeadingDigits(s[1..]);
      assert s[..n + 1] == [s[0]] + s[1..][..n];
      n + 1
  }

  /** /^(\d+)(?:-(\d+))?$/ and the checks on what it captured. */
  function ParsePart(part: string): (r: Option<Range>)
    ensures r.Some? ==> r.value.first <= r.value.last <= MAX_SAFE_INTEGER
  {
    var n := LeadingDigits(part);
    if n == 0 then None
    else
      var first := Value(part[..n]);
      if n == |part| then (if first <= MAX_SAFE_INTEGER then Some(Range(first, first)) else None)
      else if part[n] == '-' && n + 1 < |part| && AllDigits(part[n + 1..]) then
        var last := Value(part[n + 1..]);
        if first <= MAX_SAFE_INTEGER && last <= MAX_SAFE_INTEGER && first <= last
        then Some(Range(first, last)) else None
      else None
  }

  function ParseEach(parts: seq<string>): (ps: seq<Option<Range>>)
    ensures |ps| == |parts| && forall i :: 0 <= i < |parts| ==> ps[i] == ParsePart(parts[i])
  {
    seq(|parts|, i requires 0 <= i < |parts| => ParsePart(parts[i]))
  }

  /** The ranges, if every part was one. */
  function Collect(ps: seq<Option<Range>>): Option<seq<Range>> {
    if ps == [] then Some([])
    else
      var n := |ps| - 1;
      var rest := Collect(ps[..n]);
      if rest.Some? && ps[n].Some? then Some(rest.value + [ps[n].value]) else None
  }

  function Parsed(spec: string): Option<seq<nat>> {
    var trimmed := Trim(spec);
    if trimmed == "" then None
    else
      var rs := Collect(ParseEach(Split(trimmed)));
      if rs.Some? then Some(SortIds(Covered(rs.value))) else None
  }

  lemma {:induction false} CollectAll(ps: seq<Option<Range>>, rs: seq<Range>)
    requires |ps| == |rs| && forall i :: 0 <= i < |ps| ==> ps[i] == Some(rs[i])
    ensures Collect(ps) == Some(rs)
  {
    if ps != [] {
      var n := |ps| - 1;
      CollectAll(ps[..n], rs[..n]);
      assert rs == rs[..n] + [rs[n]];
    }
  }

  lemma {:induction false} CollectFails(ps: seq<Option<Range>>, i: nat)
    requires i < |ps| && ps[i].None?
    ensures Collect(ps).None?
  {
    if i < |ps| - 1 {
      CollectFails(ps[..|ps| - 1], i);
    }
  }

  method ParseCpuset(spec: string) returns (cores: Option<seq<nat>>)
    ensures cores == Parsed(spec)
    ensures cores.Some? ==>
              cores.value != [] && Increasing(cores.value) && forall c :: c in cores.value ==> c <= MAX_SAFE_INTEGER
  {
    AcceptedIds(spec);
    var trimmed := Trim(spec);
    if trimmed == "" {
      return None;
    }
    var ids: seq<nat> := [];
    ghost var rs: seq<Range> := [];
    var parts := Split(trimmed);
    ghost var ps := ParseEach(parts);
    for i := 0 to |parts|
      invariant |rs| == i && forall k :: 0 <= k < i ==> ps[k] == Some(rs[k])
      invariant Covered(rs) == ids
    {
      var range := ParsePart(parts[i]);
      if range.None? {
        CollectFails(ps, i);
        return None;
      }
      assert (rs + [range.value])[..|rs|] == rs;
      rs := rs + [range.value];
      ids := AddSpan(ids, range.value.first, range.value.last);
    }
    CollectAll(ps, rs);
    return Some(SortIds(ids));
  }

  method AddSpan(ids: seq<nat>, first: nat, last: nat) returns (more: seq<nat>)
    requires first <= last
    ensures more == ids + Span(first, last)
  {
    more := ids;
    var core := first;
    while core <= last
      invariant first <= core <= last + 1
      invariant more == ids + Span(first, last)[..core - first]
    {
      more := more + [core];
      core := core + 1;
    }
  }

  // ---------------------------------------------------------------------------------------------
  // Round trips

  lemma {:induction false} LeadingDigitsOf(digits: string, rest: string)
    requires AllDigits(digits) && (rest == "" || !IsDigit(rest[0]))
    ensures LeadingDigits(digits + rest) == |digits|
  {
    if digits == "" {
      assert digits + rest == rest;
    } else {
      LeadingDigitsOf(digits[1..], rest);
      assert (digits + rest)[1..] == digits[1..] + rest;
    }
  }

  lemma RangeReadsBack(r: Range)
    requires r.first <= r.last <= MAX_SAFE_INTEGER
    ensures ParsePart(RangeText(r)) == Some(r)
  {
    var a, b := Decimal(r.first), Decimal(r.last);
    DecimalReadsBack(r.first);
    DecimalReadsBack(r.last);
    if r.first == r.last {
      LeadingDigitsOf(a, "");
      assert a + "" == a && a[..|a|] == a;
    } else {
      var part := a + "-" + b;
      assert part == a + ("-" + b);
      LeadingDigitsOf(a, "-" + b);
      assert part[..|a|] == a && part[|a|] == '-' && part[|a| + 1..] == b;
    }
  }

  predicate NoComma(s: string) {
    ',' !in s
  }

  lemma {:induction false} SplitAppend(s: string, tail: string)
    requires NoComma(tail)
    ensures var p := Split(s); Split(s + tail) == p[..|p| - 1] + [p[|p| - 1] + tail]
    decreases |tail|
  {
    var p := Split(s);
    if tail == "" {
      assert s + tail == s && p[|p| - 1] + tail == p[|p| - 1];
    } else {
      var n := |tail| - 1;
      SplitAppend(s, tail[..n]);
      assert (s + tail)[..|s + tail| - 1] == s + tail[..n];
      assert p[|p| - 1] + tail[..n] + [tail[n]] == p[|p| - 1] + tail;
      assert tail[n] in tail;
    }
  }

  lemma SplitAfterComma(head: string, tail: string)
    requires NoComma(tail)
    ensures Split(head + "," + tail) == Split(head) + [tail]
  {
    var s := head + ",";
    assert s[..|s| - 1] == head;
    SplitAppend(s, tail);
    assert "" + tail == tail;
  }

  lemma SplitWhole(s: string)
    requires NoComma(s)
    ensures Split(s) == [s]
  {
    SplitAppend("", s);
    assert "" + s == s;
  }

  lemma {:induction false} SplitJoin(parts: seq<string>)
    requires parts != [] && forall i :: 0 <= i < |parts| ==> NoComma(parts[i])
    ensures Split(Join(parts)) == parts
  {
    var before, part := parts[..|parts| - 1], parts[|parts| - 1];
    assert parts == before + [part];
    if before == [] {
      SplitWhole(part);
    } else {
      SplitJoin(before);
      SplitAfterComma(Join(before), part);
    }
  }

  /** What the printer puts between commas: it begins and ends with a digit. */
  predicate PartShape(s: string) {
    s != "" && IsDigit(s[0]) && IsDigit(s[|s| - 1])
  }

  lemma RangeTextShape(r: Range)
    ensures PartShape(RangeText(r)) && NoComma(RangeText(r))
  {
    DecimalReadsBack(r.first);
    DecimalReadsBack(r.last);
  }

  lemma {:induction false} JoinShape(parts: seq<string>)
    requires parts != [] && forall i :: 0 <= i < |parts| ==> PartShape(parts[i])
    ensures PartShape(Join(parts))
  {
    if |parts| > 1 {
      JoinShape(parts[..|parts| - 1]);
    }
  }

  lemma {:induction false} CoveredHas(rs: seq<Range>, i: nat)
    requires i < |rs| && rs[i].first <= rs[i].last
    ensures rs[i].last in Covered(rs)
  {
    if i < |rs| - 1 {
      CoveredHas(rs[..|rs| - 1], i);
    } else {
      var ids := Span(rs[i].first, rs[i].last);
      assert ids[|ids| - 1] == rs[i].last;
    }
  }

  lemma PartsReadBack(rs: seq<Range>)
    requires forall i :: 0 <= i < |rs| ==> rs[i].first <= rs[i].last <= MAX_SAFE_INTEGER
    ensures Collect(ParseEach(Texts(rs))) == Some(rs)
  {
    var ps := ParseEach(Texts(rs));
    forall i | 0 <= i < |rs| ensures ps[i] == Some(rs[i]) {
      RangeReadsBack(rs[i]);
    }
    CollectAll(ps, rs);
  }

  lemma TextSplitsBack(rs: seq<Range>)
    requires rs != []
    ensures var s := Join(Texts(rs)); PartShape(s) && Split(s) == Texts(rs)
  {
    var parts := Texts(rs);
    forall i | 0 <= i < |parts| ensures PartShape(parts[i]) && NoComma(parts[i]) {
      RangeTextShape(rs[i]);
    }
    JoinShape(parts);
    SplitJoin(parts);
  }

  lemma UntouchedByTrim(s: string)
    requires PartShape(s)
    ensures Trim(s) == s
  {
  }

  lemma RangesParse(rs: seq<Range>)
    requires rs != [] && forall i :: 0 <= i < |rs| ==> rs[i].first <= rs[i].last <= MAX_SAFE_INTEGER
    ensures Parsed(Join(Texts(rs))) == Some(SortIds(Covered(rs)))
  {
    TextSplitsBack(rs);
    UntouchedByTrim(Join(Texts(rs)));
    PartsReadBack(rs);
  }

  lemma SortedStaysSorted(ids: seq<nat>)
    requires Increasing(ids)
    ensures SortIds(ids) == ids
  {
    SortIdsSorts(ids);
    IncreasingIsUnique(SortIds(ids), ids);
  }

  /** Parsing what was printed gives the sorted set of ids back. */
  lemma PrintedParses(cores: seq<nat>)
    requires cores != [] && forall c :: c in cores ==> c <= MAX_SAFE_INTEGER
    ensures Parsed(Printed(cores)) == Some(SortIds(cores))
  {
    var ids := SortIds(cores);
    var rs := Ranges(ids);
    SortIdsSorts(cores);
    assert cores[0] in ids;
    RangesAreExact(ids);
    forall i | 0 <= i < |rs| ensures rs[i].first <= rs[i].last <= MAX_SAFE_INTEGER {
      CoveredHas(rs, i);
    }
    RangesParse(rs);
    SortedStaysSorted(ids);
  }

  lemma {:induction false} CollectedRangesAreSafe(ps: seq<Option<Range>>)
    requires Collect(ps).Some?
    requires forall i :: 0 <= i < |ps| && ps[i].Some? ==> ps[i].value.first <= ps[i].value.last <= MAX_SAFE_INTEGER
    ensures var rs := Collect(ps).value;
            && |rs| == |ps|
            && forall i :: 0 <= i < |rs| ==> rs[i].first <= rs[i].last <= MAX_SAFE_INTEGER
  {
    if ps != [] {
      CollectedRangesAreSafe(ps[..|ps| - 1]);
    }
  }

  lemma {:induction false} CoveredIsBounded(rs: seq<Range>, top: nat)
    requires forall i :: 0 <= i < |rs| ==> rs[i].last <= top
    ensures forall c :: c in Covered(rs) ==> c <= top
  {
    if rs != [] {
      CoveredIsBounded(rs[..|rs| - 1], top);
    }
  }

  /** An accepted string names at least one id, every one a safe integer. */
  lemma AcceptedIds(spec: string)
    ensures Parsed(spec).Some? ==>
              var ids := Parsed(spec).value;
              ids != [] && Increasing(ids) && forall c :: c in ids ==> c <= MAX_SAFE_INTEGER
  {
    if Parsed(spec).Some? {
      var parts := Split(Trim(spec));
      CollectedRangesAreSafe(ParseEach(parts));
      var rs := Collect(ParseEach(parts)).value;
      CoveredIsBounded(rs, MAX_SAFE_INTEGER);
      CoveredHas(rs, 0);
      SortIdsSorts(Covered(rs));
      assert rs[0].last in SortIds(Covered(rs));
    }
  }

  /** Any accepted string reprints to a normal form: the same ids, printed the same way again. */
  lemma AcceptedReprints(spec: string)
    requires Parsed(spec).Some?
    ensures Parsed(Printed(Parsed(spec).value)) == Parsed(spec)
  {
    var ids := Parsed(spec).value;
    AcceptedIds(spec);
    PrintedParses(ids);
    SortedStaysSorted(ids);
  }
}
