/** Taking text apart at a separator and putting it together again. */
module Texts {
  import opened Wrappers

  function SplitOnce(s: string, c: char): (r: Option<(string, string)>)
    ensures r.None? <==> c !in s
    ensures r.Some? ==> c !in r.value.0 && s == r.value.0 + [c] + r.value.1
  {
    if s == "" then None
    else if s[0] == c then Some(("", s[1..]))
    else
      var r := SplitOnce(s[1..], c);
      if r.None? then None else Some(([s[0]] + r.value.0, r.value.1))
  }

  /** The pieces between separators; an empty text has one empty piece. */
  function Split(s: string, c: char): (parts: seq<string>)
    ensures parts != []
    decreases |s|
  {
    var r := SplitOnce(s, c);
    if r.None? then [s] else [r.value.0] + Split(r.value.1, c)
  }

  function Join(parts: seq<string>, c: char): string {
    if parts == [] then "" else if |parts| == 1 then parts[0] else parts[0] + [c] + Join(parts[1..], c)
  }

  ghost predicate Without(parts: seq<string>, c: char) {
    forall i :: 0 <= i < |parts| ==> c !in parts[i]
  }

  lemma {:induction false} FirstSeparator(a: string, c: char, b: string)
    requires c !in a
    ensures SplitOnce(a + [c] + b, c) == Some((a, b))
  {
    var s := a + [c] + b;
    if a != "" {
      assert s[1..] == a[1..] + [c] + b;
      FirstSeparator(a[1..], c, b);
      assert [a[0]] + a[1..] == a;
    } else {
      assert s[1..] == b;
    }
  }

  lemma {:induction false} SplitParts(s: string, c: char)
    ensures Without(Split(s, c), c) && Join(Split(s, c), c) == s
    decreases |s|
  {
    var r := SplitOnce(s, c);
    if r.Some? {
      SplitParts(r.value.1, c);
      assert Split(s, c)[1..] == Split(r.value.1, c);
    }
  }

  lemma {:induction false} SplitJoined(parts: seq<string>, c: char)
    requires parts != [] && Without(parts, c)
    ensures Split(Join(parts, c), c) == parts
  {
    if |parts| > 1 {
      SplitJoined(parts[1..], c);
      FirstSeparator(parts[0], c, Join(parts[1..], c));
    } else {
      assert parts == [parts[0]];
    }
  }
}
