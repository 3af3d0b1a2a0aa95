/** Version numbers in free-form text: finding one, comparing two, and checking one against a window. */
module Versions {
  import opened Wrappers
  import opened Texts

  datatype Ordering = Less | Equal | Greater

  const U64_BOUND: nat := 0x1_0000_0000_0000_0000

  predicate IsDigit(c: char) {
    '0' <= c <= '9'
  }

  predicate InRun(c: char) {
    IsDigit(c) || c == '.'
  }

  // ----- Comparing -----

  /** A version's part at a position; missing parts are zero. */
  function PartAt(v: seq<nat>, i: nat): nat {
    if i < |v| then v[i] else 0
  }

  function Max(a: nat, b: nat): nat {
    if a >= b then a else b
  }

  function Cmp(a: nat, b: nat): Ordering {
    if a < b then Less else if a == b then Equal else Greater
  }

  /** The versions agree up to `i` and differ there, in this direction. */
  ghost predicate DiffersAt(a: seq<nat>, b: seq<nat>, i: nat, o: Ordering) {
    && (o == Less ==> PartAt(a, i) < PartAt(b, i)) && (o == Greater ==> PartAt(a, i) > PartAt(b, i)) && o != Equal
    && forall j: nat :: j < i ==> PartAt(a, j) == PartAt(b, j)
  }

  ghost predicate SameVersion(a: seq<nat>, b: seq<nat>) {
    forall i: nat :: PartAt(a, i) == PartAt(b, i)
  }

  /** Lexicographic comparison of the versions extended with zeros for ever. */
  ghost predicate Compares(a: seq<nat>, b: seq<nat>, o: Ordering) {
    if o == Equal then SameVersion(a, b) else exists i: nat :: DiffersAt(a, b, i, o)
  }

  function CmpFrom(a: seq<nat>, b: seq<nat>, i: nat): Ordering
    decreases Max(|a|, |b|) - i
  {
    if i >= Max(|a|, |b|) then Equal
    else if PartAt(a, i) == PartAt(b, i) then CmpFrom(a, b, i + 1)
    else Cmp(PartAt(a, i), PartAt(b, i))
  }

  method CmpVersions(a: seq<nat>, b: seq<nat>) returns (o: Ordering)
    ensures o == CmpFrom(a, b, 0)
    ensures Compares(a, b, o)
  {
    var len := Max(|a|, |b|);
    for i := 0 to len
      invariant CmpFrom(a, b, i) == CmpFrom(a, b, 0)
      invariant forall j: nat :: j < i ==> PartAt(a, j) == PartAt(b, j)
    {
      var c := Cmp(PartAt(a, i), PartAt(b, i));
      if c != Equal {
        assert DiffersAt(a, b, i, c);
        return c;
      }
    }
    return Equal;
  }

  lemma {:induction false} CmpFromCompares(a: seq<nat>, b: seq<nat>, i: nat)
    requires forall j: nat :: j < i ==> PartAt(a, j) == PartAt(b, j)
    ensures Compares(a, b, CmpFrom(a, b, i))
    decreases Max(|a|, |b|) - i
  {
    if i < Max(|a|, |b|) {
      if PartAt(a, i) == PartAt(b, i) {
        CmpFromCompares(a, b, i + 1);
      } else {
        assert DiffersAt(a, b, i, CmpFrom(a, b, i));
      }
    }
  }

  /** Exactly one of the three outcomes holds of any two versions. */
  lemma ComparesOnce(a: seq<nat>, b: seq<nat>, o: Ordering, o': Ordering)
    requires Compares(a, b, o) && Compares(a, b, o')
    ensures o == o'
  {
    if o != Equal && o' != Equal {
      var i: nat :| DiffersAt(a, b, i, o);
      var j: nat :| DiffersAt(a, b, j, o');
      assert i == j;
    }
  }

  function Flip(o: Ordering): Ordering {
    match o
    case Less => Greater
    case Equal => Equal
    case Greater => Less
  }

  /** The first version is the same as the second or lower. */
  ghost predicate AtMost(a: seq<nat>, b: seq<nat>) {
    SameVersion(a, b) || exists i: nat :: DiffersAt(a, b, i, Less)
  }

  lemma AtMostAsCompared(a: seq<nat>, b: seq<nat>)
    ensures AtMost(a, b) <==> CmpFrom(a, b, 0) != Greater
  {
    CmpFromCompares(a, b, 0);
    if AtMost(a, b) {
      ComparesOnce(a, b, CmpFrom(a, b, 0), if SameVersion(a, b) then Equal else Less);
    }
  }

  lemma Antisymmetric(a: seq<nat>, b: seq<nat>)
    ensures CmpFrom(b, a, 0) == Flip(CmpFrom(a, b, 0))
  {
    CmpFromCompares(a, b, 0);
    CmpFromCompares(b, a, 0);
    var o := CmpFrom(a, b, 0);
    if o == Equal {
      assert Compares(b, a, Equal);
      ComparesOnce(b, a, CmpFrom(b, a, 0), Equal);
    } else {
      var i: nat :| DiffersAt(a, b, i, o);
      assert DiffersAt(b, a, i, Flip(o));
      ComparesOnce(b, a, CmpFrom(b, a, 0), Flip(o));
    }
  }

  /** The order is total, and transitive across versions of different lengths. */
  lemma TotalPreorder(a: seq<nat>, b: seq<nat>, c: seq<nat>)
    ensures AtMost(a, a)
    ensures AtMost(a, b) || AtMost(b, a)
    ensures AtMost(a, b) && AtMost(b, c) ==> AtMost(a, c)
    ensures AtMost(a, b) && AtMost(b, a) <==> SameVersion(a, b)
  {
    Antisymmetric(a, b);
    AtMostAsCompared(a, b);
    AtMostAsCompared(b, a);
    CmpFromCompares(a, b, 0);
    if SameVersion(a, b) {
      assert SameVersion(b, a);
    }
    if AtMost(a, b) && AtMost(b, c) {
      Transitive(a, b, c);
    }
  }

  lemma Transitive(a: seq<nat>, b: seq<nat>, c: seq<nat>)
    requires AtMost(a, b) && AtMost(b, c)
    ensures AtMost(a, c)
  {
    if SameVersion(a, b) && SameVersion(b, c) {
      forall i: nat
        ensures PartAt(a, i) == PartAt(c, i)
      {
        assert PartAt(a, i) == PartAt(b, i) == PartAt(c, i);
      }
    } else {
      var k := FirstLess(a, b, c);
      assert DiffersAt(a, c, k, Less);
    }
  }

  lemma FirstLess(a: seq<nat>, b: seq<nat>, c: seq<nat>) returns (k: nat)
    requires AtMost(a, b) && AtMost(b, c)
    requires !(SameVersion(a, b) && SameVersion(b, c))
    ensures DiffersAt(a, c, k, Less)
  {
    if SameVersion(a, b) {
      k :| DiffersAt(b, c, k, Less);
      assert forall j: nat :: j <= k ==> PartAt(a, j) == PartAt(b, j);
    } else if SameVersion(b, c) {
      k :| DiffersAt(a, b, k, Less);
      assert forall j: nat :: j <= k ==> PartAt(b, j) == PartAt(c, j);
    } else {
      var i: nat :| DiffersAt(a, b, i, Less);
      var j: nat :| DiffersAt(b, c, j, Less);
      k := if i <= j then i else j;
      assert forall l: nat :: l < k ==> PartAt(a, l) == PartAt(b, l) == PartAt(c, l);
      assert PartAt(a, k) <= PartAt(b, k) <= PartAt(c, k);
    }
  }

  /** After a common beginning the first difference decides, whatever follows. */
  lemma FirstDifferenceDecides(common: seq<nat>, x: nat, y: nat, a: seq<nat>, b: seq<nat>)
    requires x < y
    ensures CmpFrom(common + [x] + a, common + [y] + b, 0) == Less
  {
    var u, v := common + [x] + a, common + [y] + b;
    CmpFromCompares(u, v, 0);
    assert forall j: nat :: j < |common| ==> u[j] == common[j] == v[j];
    assert DiffersAt(u, v, |common|, Less);
    ComparesOnce(u, v, CmpFrom(u, v, 0), Less);
  }

  /** Zeros at the end count for nothing, and anything else does. */
  lemma ZerosAtTheEnd(v: seq<nat>, more: seq<nat>)
    ensures CmpFrom(v, v + more, 0) == if forall i :: 0 <= i < |more| ==> more[i] == 0 then Equal else Less
  {
    var w := v + more;
    CmpFromCompares(v, w, 0);
    if forall i :: 0 <= i < |more| ==> more[i] == 0 {
      assert SameVersion(v, w);
      ComparesOnce(v, w, CmpFrom(v, w, 0), Equal);
    } else {
      var i := FirstNotZero(more);
      assert forall j: nat :: |v| <= j < |v| + i ==> w[j] == more[j - |v|];
      assert DiffersAt(v, w, |v| + i, Less);
      ComparesOnce(v, w, CmpFrom(v, w, 0), Less);
    }
  }

  lemma {:induction false} FirstNotZero(s: seq<nat>) returns (i: nat)
    requires exists k :: 0 <= k < |s| && s[k] != 0
    ensures i < |s| && s[i] != 0 && forall j :: 0 <= j < i ==> s[j] == 0
  {
    if s[0] != 0 {
      i := 0;
    } else {
      i := FirstNotZero(s[1..]);
      assert forall j :: 0 < j <= i ==> s[j] == s[1..][j - 1];
      i := i + 1;
    }
  }

  // ----- Finding -----

  function DigitValue(c: char): nat
    requires IsDigit(c)
  {
    (c - '0') as nat
  }

  predicate AllDigits(s: string) {
    forall i :: 0 <= i < |s| ==> IsDigit(s[i])
  }

  function NumberOf(s: string): nat
    requires AllDigits(s)
  {
    if s == "" then 0 else 10 * NumberOf(s[..|s| - 1]) + DigitValue(s[|s| - 1])
  }

  /** What `parse` makes of a part, or zero if it fails. */
  function ParsePart(part: string): nat {
    if part != "" && AllDigits(part) && NumberOf(part) < U64_BOUND then NumberOf(part) else 0
  }

  function ParseParts(parts: seq<string>): (v: seq<nat>)
    ensures |v| == |parts| && forall i :: 0 <= i < |v| ==> v[i] == ParsePart(parts[i])
  {
    if parts == [] then [] else [ParsePart(parts[0])] + ParseParts(parts[1..])
  }

  function RunEnd(s: string, i: nat): (j: nat)
    requires i <= |s|
    ensures i <= j <= |s|
    ensures forall k :: i <= k < j ==> InRun(s[k])
    ensures j < |s| ==> !InRun(s[j])
    decreases |s| - i
  {
    if i < |s| && InRun(s[i]) then RunEnd(s, i + 1) else i
  }

  function Extracted(s: string, i: nat): Option<seq<nat>>
    requires i <= |s|
    decreases |s| - i
  {
    if i == |s| then None
    else if IsDigit(s[i]) then
      var run := s[i..RunEnd(s, i)];
      if '.' in run then Some(ParseParts(Split(run, '.'))) else Extracted(s, RunEnd(s, i))
    else Extracted(s, i + 1)
  }

  method ExtractVersion(s: string) returns (v: Option<seq<nat>>)
    ensures v == Extracted(s, 0)
    ensures v.Some? ==> |v.value| >= 2
  {
    var i := 0;
    while i < |s|
      invariant i <= |s| && Extracted(s, i) == Extracted(s, 0)
    {
      if IsDigit(s[i]) {
        var start := i;
        var dotCount := 0;
        while i < |s| && InRun(s[i])
          invariant start <= i <= |s| && RunEnd(s, i) == RunEnd(s, start)
          invariant dotCount > 0 <==> '.' in s[start..i]
          invariant i == start ==> IsDigit(s[i])
        {
          assert s[start..i + 1] == s[start..i] + [s[i]];
          if s[i] == '.' {
            dotCount := dotCount + 1;
          }
          i := i + 1;
        }
        if dotCount > 0 {
          DotsMakeParts(s[start..i]);
          return Some(ParseParts(Split(s[start..i], '.')));
        }
      } else {
        i := i + 1;
      }
    }
    return None;
  }

  lemma DotsMakeParts(run: string)
    requires '.' in run
    ensures |Split(run, '.')| >= 2
  {
    var r := SplitOnce(run, '.');
    assert |Split(r.value.1, '.')| >= 1;
  }

  /** `s[i..j]` is as long as a run of digits and dots can be that is led by its first digit. */
  ghost predicate IsMaximalRun(s: string, i: nat, j: nat) {
    && i < j <= |s| && IsDigit(s[i])
    && (forall k :: i <= k < j ==> InRun(s[k]))
    && (j < |s| ==> !InRun(s[j]))
    && Leads(s, i)
  }

  /** Between an earlier digit and position `i` there is something that is neither digit nor dot. */
  ghost predicate Leads(s: string, i: nat)
    requires i <= |s|
  {
    forall k :: 0 <= k < i && IsDigit(s[k]) ==> exists m :: k < m < i && !InRun(s[m])
  }

  /** Scanning may resume here: no digit-led run reaches over this position. */
  ghost predicate Resumes(s: string, i: nat) {
    i <= |s| && (i < |s| && InRun(s[i]) ==> Leads(s, i))
  }

  lemma ResumesNext(s: string, i: nat)
    requires Resumes(s, i) && i < |s|
    ensures IsDigit(s[i]) ==> IsMaximalRun(s, i, RunEnd(s, i)) && Resumes(s, RunEnd(s, i))
    ensures !IsDigit(s[i]) ==> Resumes(s, i + 1)
  {
    if !IsDigit(s[i]) && i + 1 < |s| && InRun(s[i + 1]) {
      forall k | 0 <= k < i + 1 && IsDigit(s[k])
        ensures exists m :: k < m < i + 1 && !InRun(s[m])
      {
        if InRun(s[i]) {
          var m :| k < m < i && !InRun(s[m]);
        } else {
          assert k < i < i + 1;
        }
      }
    }
  }

  /** No run that starts in `[i, to)` and is dotted. */
  ghost predicate NoDottedRun(s: string, i: nat, to: nat) {
    forall a: nat, b: nat :: i <= a < to && IsMaximalRun(s, a, b) ==> '.' !in s[a..b]
  }

  lemma EndsNoEarlier(s: string, i: nat, b: nat, c: nat)
    requires i <= b <= |s| && i <= c <= |s|
    requires b < |s| ==> !InRun(s[b])
    requires forall k :: i <= k < c ==> InRun(s[k])
    ensures c <= b
  {
  }

  lemma OneRunPerStart(s: string, a: nat, b: nat, i: nat)
    requires i < |s| && IsMaximalRun(s, i, RunEnd(s, i)) && IsMaximalRun(s, a, b) && i <= a < RunEnd(s, i)
    ensures a == i && b == RunEnd(s, i)
  {
    assert a <= i;
    EndsNoEarlier(s, i, b, RunEnd(s, i));
    EndsNoEarlier(s, i, RunEnd(s, i), b);
  }

  /** The scan from `i` finds the first dotted run from there on. */
  lemma {:induction false} FindsFirstDotted(s: string, i: nat)
    requires Resumes(s, i)
    ensures Extracted(s, i).None? ==> NoDottedRun(s, i, |s|)
    ensures Extracted(s, i).Some? ==>
              exists a: nat, b: nat :: i <= a && IsMaximalRun(s, a, b) && '.' in s[a..b] && NoDottedRun(s, i, a)
                             && Extracted(s, i).value == ParseParts(Split(s[a..b], '.'))
    decreases |s| - i
  {
    if i < |s| {
      ResumesNext(s, i);
      var next := if IsDigit(s[i]) then RunEnd(s, i) else i + 1;
      if IsDigit(s[i]) && '.' in s[i..next] {
        assert IsMaximalRun(s, i, next) && NoDottedRun(s, i, i);
      } else {
        FindsFirstDotted(s, next);
        forall a: nat, b: nat | i <= a < next && IsMaximalRun(s, a, b)
          ensures '.' !in s[a..b]
        {
          OneRunPerStart(s, a, b, i);
        }
      }
    }
  }

  /** A version is found exactly when some maximal run of digits and dots, led by a digit, holds a dot;
      it is the first such run, cut at its dots. */
  lemma FoundExactlyWhenDotted(s: string)
    ensures Extracted(s, 0).Some? <==> exists a: nat, b: nat :: IsMaximalRun(s, a, b) && '.' in s[a..b]
    ensures forall a: nat, b: nat :: IsMaximalRun(s, a, b) && '.' in s[a..b] && NoDottedRun(s, 0, a) ==>
              Extracted(s, 0) == Some(ParseParts(Split(s[a..b], '.')))
  {
    FindsFirstDotted(s, 0);
    if Extracted(s, 0).Some? {
      var a0: nat, b0: nat :| IsMaximalRun(s, a0, b0) && '.' in s[a0..b0] && NoDottedRun(s, 0, a0)
                    && Extracted(s, 0).value == ParseParts(Split(s[a0..b0], '.'));
      forall a: nat, b: nat | IsMaximalRun(s, a, b) && '.' in s[a..b] && NoDottedRun(s, 0, a)
        ensures a == a0 && b == b0
      {
        assert a <= a0;
        assert a0 <= a;
        EndsNoEarlier(s, a, b, b0);
        EndsNoEarlier(s, a, b0, b);
      }
    }
  }

  // ----- Printed versions are read back -----

  function Digit(n: nat): char
    requires n < 10
  {
    '0' + n as char
  }

  function Printed(n: nat): string {
    if n < 10 then [Digit(n)] else Printed(n / 10) + [Digit(n % 10)]
  }

  lemma {:induction false} PrintedReadsBack(n: nat)
    ensures Printed(n) != "" && AllDigits(Printed(n)) && NumberOf(Printed(n)) == n
  {
    if n >= 10 {
      PrintedReadsBack(n / 10);
      assert Printed(n)[..|Printed(n)| - 1] == Printed(n / 10);
    }
  }

  function PrintedParts(v: seq<nat>): (parts: seq<string>)
    ensures |parts| == |v| && forall i :: 0 <= i < |v| ==> parts[i] == Printed(v[i])
  {
    if v == [] then [] else [Printed(v[0])] + PrintedParts(v[1..])
  }

  function PrintedVersion(v: seq<nat>): string {
    Join(PrintedParts(v), '.')
  }

  /** Pieces that a dotted run may consist of. */
  ghost predicate DigitPieces(parts: seq<string>) {
    forall i :: 0 <= i < |parts| ==> AllDigits(parts[i])
  }

  lemma {:induction false} JoinIsARun(parts: seq<string>)
    requires DigitPieces(parts)
    ensures forall i :: 0 <= i < |Join(parts, '.')| ==> InRun(Join(parts, '.')[i])
    ensures |parts| >= 2 ==> '.' in Join(parts, '.')
    ensures parts != [] && parts[0] != "" ==> Join(parts, '.') != "" && IsDigit(Join(parts, '.')[0])
  {
    if |parts| >= 2 {
      JoinIsARun(parts[1..]);
      var s := Join(parts, '.');
      assert s[|parts[0]|] == '.';
    }
  }

  lemma {:induction false} SkipsToFirstDigit(s: string, i: nat, to: nat)
    requires i <= to <= |s| && forall k :: i <= k < to ==> !IsDigit(s[k])
    ensures Extracted(s, i) == Extracted(s, to)
    decreases |s| - i
  {
    if i < to {
      SkipsToFirstDigit(s, i + 1, to);
    }
  }

  lemma RunFills(s: string, n: nat, m: nat)
    requires n < m <= |s| && (m < |s| ==> !InRun(s[m]))
    requires forall i :: 0 <= i < m - n ==> InRun(s[n..m][i])
    ensures RunEnd(s, n) == m
  {
    assert forall k :: n <= k < m ==> s[k] == s[n..m][k - n];
    EndsNoEarlier(s, n, m, RunEnd(s, n));
    EndsNoEarlier(s, n, RunEnd(s, n), m);
  }

  function Zeros(k: nat): string {
    seq(k, i => '0')
  }

  lemma {:induction false} NumberOfZeros(k: nat)
    ensures AllDigits(Zeros(k)) && NumberOf(Zeros(k)) == 0
  {
    if k > 0 {
      NumberOfZeros(k - 1);
      assert Zeros(k)[..k - 1] == Zeros(k - 1);
    }
  }

  lemma {:induction false} LeadingZerosCountForNothing(k: nat, s: string)
    requires AllDigits(s)
    ensures AllDigits(Zeros(k) + s) && NumberOf(Zeros(k) + s) == NumberOf(s)
  {
    var all, n := Zeros(k) + s, |s| - 1;
    NumberOfZeros(k);
    if s == "" {
      assert all == Zeros(k);
    } else {
      LeadingZerosCountForNothing(k, s[..n]);
      assert all[..|all| - 1] == Zeros(k) + s[..n];
    }
  }

  /** Every piece made of digits is a printed number after some zeros. */
  lemma {:induction false} DigitsArePrinted(s: string) returns (k: nat, n: nat)
    requires s != "" && AllDigits(s)
    ensures s == Zeros(k) + Printed(n)
  {
    var rest, d := s[..|s| - 1], DigitValue(s[|s| - 1]);
    assert s == rest + [Digit(d)];
    if rest == "" {
      k, n := 0, d;
    } else {
      k, n := DigitsArePrinted(rest);
      if n == 0 {
        assert rest == Zeros(k + 1);
        k, n := k + 1, d;
      } else {
        assert Printed(10 * n + d) == Printed(n) + [Digit(d)];
        n := 10 * n + d;
      }
    }
  }

  /** A piece counts for the number it prints, leading zeros or not; for zero if that does not fit 64 bits, or if it is
      empty. */
  ghost predicate ReadAs(part: string, value: nat) {
    && (part == "" ==> value == 0)
    && forall k: nat, n: nat :: part == Zeros(k) + Printed(n) ==> value == if n < 0x1_0000_0000_0000_0000 then n else 0
  }

  lemma PartIsReadAs(part: string)
    requires AllDigits(part)
    ensures ReadAs(part, ParsePart(part))
  {
    forall k: nat, n: nat | part == Zeros(k) + Printed(n)
      ensures ParsePart(part) == if n < 0x1_0000_0000_0000_0000 then n else 0
    {
      PrintedReadsBack(n);
      LeadingZerosCountForNothing(k, Printed(n));
    }
  }

  /** That says what every piece of digits counts for. */
  lemma ReadAsOneValue(part: string, v: nat, w: nat)
    requires AllDigits(part) && ReadAs(part, v) && ReadAs(part, w)
    ensures v == w
  {
    if part != "" {
      var k, n := DigitsArePrinted(part);
    }
  }

  /** A dotted run led by a digit is read back from any text with no digit before it and nothing after it that could
      belong to it: every piece between its dots for what it counts. */
  lemma DottedRunIsFound(before: string, parts: seq<string>, after: string) returns (v: seq<nat>)
    requires |parts| >= 2 && DigitPieces(parts) && parts[0] != ""
    requires forall i :: 0 <= i < |before| ==> !IsDigit(before[i])
    requires after != "" ==> !InRun(after[0])
    ensures Extracted(before + Join(parts, '.') + after, 0) == Some(v)
    ensures |v| == |parts| && forall i :: 0 <= i < |v| ==> ReadAs(parts[i], v[i])
  {
    var run := Join(parts, '.');
    var s := before + run + after;
    var n, m := |before|, |before| + |run|;
    JoinIsARun(parts);
    assert s[n..m] == run && (m < |s| ==> s[m] == after[0]);
    SkipsToFirstDigit(s, 0, n);
    RunFills(s, n, m);
    assert s[n] == run[0];
    SplitJoined(parts, '.');
    v := ParseParts(parts);
    forall i | 0 <= i < |v|
      ensures ReadAs(parts[i], v[i])
    {
      PartIsReadAs(parts[i]);
    }
  }

  /** A version with at least two parts is read back from any text that prints it after no digit
      and before nothing that could belong to it. */
  lemma PrintedVersionIsFound(before: string, v: seq<nat>, after: string)
    requires |v| >= 2 && forall i :: 0 <= i < |v| ==> v[i] < U64_BOUND
    requires forall i :: 0 <= i < |before| ==> !IsDigit(before[i])
    requires after != "" ==> !InRun(after[0])
    ensures Extracted(before + PrintedVersion(v) + after, 0) == Some(v)
  {
    var parts := PrintedParts(v);
    forall i | 0 <= i < |parts|
      ensures AllDigits(parts[i]) && parts[i] != "" && parts[i] == Zeros(0) + Printed(v[i])
    {
      PrintedReadsBack(v[i]);
    }
    var found := DottedRunIsFound(before, parts, after);
    assert found == v;
  }

  // ----- Checking -----

  datatype ProbeStatus = Ok | OutOfWindow | ParseError(culprit: string)

  method CheckVersion(version: string, min: string, max: string) returns (status: ProbeStatus)
    ensures var d, lo, hi := Extracted(version, 0), Extracted(min, 0), Extracted(max, 0);
            && (status.ParseError? <==> d.None? || lo.None? || hi.None?)
            && (status.ParseError? ==> status.culprit == if d.None? then version else if lo.None? then min else max)
            && (d.Some? && lo.Some? && hi.Some? ==>
                  (status == ProbeStatus.Ok <==> AtMost(lo.value, d.value) && AtMost(d.value, hi.value)))
  {
    var detected := ExtractVersion(version);
    if detected.None? {
      return ParseError(version);
    }
    var minParts := ExtractVersion(min);
    if minParts.None? {
      return ParseError(min);
    }
    var maxParts := ExtractVersion(max);
    if maxParts.None? {
      return ParseError(max);
    }
    Antisymmetric(minParts.value, detected.value);
    AtMostAsCompared(minParts.value, detected.value);
    AtMostAsCompared(detected.value, maxParts.value);
    var low := CmpVersions(detected.value, minParts.value);
    if low == Less {
      return OutOfWindow;
    }
    var high := CmpVersions(detected.value, maxParts.value);
    return if high == Greater then OutOfWindow else ProbeStatus.Ok;
  }
}
