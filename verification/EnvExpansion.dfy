/** Expansion of `${NAME}` and `${NAME:-default}` in configuration text. */
module EnvExpansion {
  import opened Wrappers

  type Lookup = string -> Option<string>

  predicate Opens(s: string) {
    |s| >= 2 && s[0] == '$' && s[1] == '{'
  }

  predicate Separates(s: string) {
    |s| >= 2 && s[0] == ':' && s[1] == '-'
  }

  /** The text before the first closing brace, or all of it. */
  function Body(s: string): (body: string)
    ensures body <= s && '}' !in body
    ensures |body| < |s| ==> s[|body|] == '}'
  {
    if s == "" || s[0] == '}' then "" else [s[0]] + Body(s[1..])
  }

  /** The text before the first `:-`, or all of it. */
  function NameOf(body: string): (name: string)
    ensures name <= body
    ensures |name| < |body| ==> Separates(body[|name|..])
  {
    if body == "" || Separates(body) then "" else [body[0]] + NameOf(body[1..])
  }

  predicate HasDefault(body: string) {
    |NameOf(body)| < |body|
  }

  /** The text without any `:-`. */
  function Stripped(s: string): string {
    if s == "" then "" else if Separates(s) then Stripped(s[2..]) else [s[0]] + Stripped(s[1..])
  }

  /** Everything after the first `:-`. Every further one disappears as well. */
  function DefaultOf(body: string): string {
    if HasDefault(body) then Stripped(body[|NameOf(body)| + 2..]) else ""
  }

  function Value(lookup: Lookup, name: string): string {
    var v := lookup(name);
    if v.Some? then v.value else ""
  }

  function Replacement(lookup: Lookup, body: string): string {
    var value := Value(lookup, NameOf(body));
    if value == "" then DefaultOf(body) else value
  }

  /** An unterminated placeholder, put together again from what was read. */
  function Restored(body: string): string {
    "${" + (NameOf(body) + ((if HasDefault(body) then ":-" else "") + DefaultOf(body)))
  }

  function Expanded(lookup: Lookup, s: string): string
    decreases |s|
  {
    if s == "" then ""
    else if Opens(s) then
      var body := Body(s[2..]);
      if |body| < |s[2..]| then Replacement(lookup, body) + Expanded(lookup, s[2..][|body| + 1..]) else Restored(body)
    else [s[0]] + Expanded(lookup, s[1..])
  }

  lemma NameAfter(body: string)
    requires body != "" && !Separates(body)
    ensures NameOf(body) == [body[0]] + NameOf(body[1..])
    ensures HasDefault(body) <==> HasDefault(body[1..])
  {
  }

  lemma DefaultAfter(body: string)
    requires body != "" && !Separates(body)
    ensures DefaultOf(body) == DefaultOf(body[1..])
  {
    NameAfter(body);
    if HasDefault(body) {
      assert body[|NameOf(body)| + 2..] == body[1..][|NameOf(body[1..])| + 2..];
    }
  }

  /** What has been read of a placeholder, with `left` of its body still to come. */
  ghost predicate Reading(body: string, left: string, name: string, default: string, inDefault: bool) {
    if inDefault then HasDefault(body) && name == NameOf(body) && default + Stripped(left) == DefaultOf(body)
    else
      && default == "" && name + NameOf(left) == NameOf(body)
      && HasDefault(left) == HasDefault(body) && DefaultOf(left) == DefaultOf(body)
  }

  lemma ReadSeparator(body: string, left: string, name: string, default: string, inDefault: bool)
    requires Reading(body, left, name, default, inDefault) && Separates(left)
    ensures Reading(body, left[2..], name, default, true)
  {
    assert !inDefault ==> name + "" == NameOf(body);
  }

  lemma ReadDefaultChar(body: string, left: string, name: string, default: string)
    requires Reading(body, left, name, default, true) && left != "" && !Separates(left)
    ensures Reading(body, left[1..], name, default + [left[0]], true)
  {
    assert Stripped(left) == [left[0]] + Stripped(left[1..]);
    Appended(default, [left[0]], Stripped(left[1..]));
  }

  lemma ReadNameChar(body: string, left: string, name: string)
    requires Reading(body, left, name, "", false) && left != "" && !Separates(left)
    ensures Reading(body, left[1..], name + [left[0]], "", false)
  {
    NameAfter(left);
    DefaultAfter(left);
    Appended(name, [left[0]], NameOf(left[1..]));
  }

  lemma Tails(s: string, i: nat, j: nat)
    requires i < j <= |s|
    ensures s[i..j][1..] == s[i + 1..j] && s[i..j][0] == s[i]
    ensures i + 1 < j ==> s[i..j][2..] == s[i + 2..j] && s[i..j][1] == s[i + 1]
  {
  }

  /** Where the inner loop stands. */
  datatype Reader = Reader(next: nat, name: string, default: string, inDefault: bool)

  ghost predicate Inside(input: string, start: nat, body: string, r: Reader) {
    && start <= r.next <= start + |body| <= |input|
    && Reading(body, input[r.next..start + |body|], r.name, r.default, r.inDefault)
  }

  /** The inner loop is through, with or without a closing brace. */
  ghost predicate Read(input: string, start: nat, r: Reader, foundClose: bool) {
    && start <= |input|
    && var body := Body(input[start..]);
    && foundClose == (|body| < |input| - start)
    && r == Reader(start + |body| + (if foundClose then 1 else 0), NameOf(body), DefaultOf(body), HasDefault(body))
  }

  lemma BodyAt(input: string, start: nat, i: nat)
    requires start <= i < |input|
    ensures var end := start + |Body(input[start..])|;
            && (i < end ==> input[i] != '}')
            && (i == end ==> input[i] == '}')
  {
    var body := Body(input[start..]);
    assert i < start + |body| ==> body[i - start] == input[i];
  }

  lemma ReadingStarts(input: string, start: nat)
    requires start <= |input|
    ensures Inside(input, start, Body(input[start..]), Reader(start, "", "", false))
  {
    assert input[start..start + |Body(input[start..])|] == Body(input[start..]);
  }

  lemma ReadingEnds(input: string, start: nat, r: Reader)
    requires start <= |input| && Inside(input, start, Body(input[start..]), r)
    requires r.next < |input| ==> input[r.next] == '}'
    ensures Read(input, start, if r.next < |input| then r.(next := r.next + 1) else r, r.next < |input|)
  {
    var body := Body(input[start..]);
    if r.next < |input| {
      BodyAt(input, start, r.next);
    }
    assert r.next == start + |body|;
    assert input[r.next..r.next] == "";
  }

  lemma SeparatesInside(input: string, start: nat, i: nat)
    requires start <= |input|
    requires var end := start + |Body(input[start..])|; start <= i < end
    ensures var end := start + |Body(input[start..])|; Separates(input[i..]) <==> Separates(input[i..end])
  {
    var end := start + |Body(input[start..])|;
    Tails(input, i, end);
    if i + 1 < |input| {
      BodyAt(input, start, i + 1);
    }
  }

  /** One turn of the inner loop. */
  ghost function Turn(input: string, r: Reader): Reader
    requires r.next < |input|
  {
    var inner := input[r.next];
    if inner == ':' && r.next + 1 < |input| && input[r.next + 1] == '-' then r.(next := r.next + 2, inDefault := true)
    else if r.inDefault then r.(next := r.next + 1, default := r.default + [inner])
    else r.(next := r.next + 1, name := r.name + [inner])
  }

  lemma ReadsOverSeparator(input: string, start: nat, body: string, r: Reader)
    requires Inside(input, start, body, r) && r.next < start + |body| && Separates(input[r.next..start + |body|])
    ensures Inside(input, start, body, r.(next := r.next + 2, inDefault := true))
  {
    var left := input[r.next..start + |body|];
    Tails(input, r.next, start + |body|);
    ReadSeparator(body, left, r.name, r.default, r.inDefault);
  }

  lemma ReadsOverChar(input: string, start: nat, body: string, r: Reader)
    requires Inside(input, start, body, r) && r.next < start + |body| && !Separates(input[r.next..start + |body|])
    ensures r.inDefault ==> Inside(input, start, body, r.(next := r.next + 1, default := r.default + [input[r.next]]))
    ensures !r.inDefault ==> Inside(input, start, body, r.(next := r.next + 1, name := r.name + [input[r.next]]))
  {
    var left := input[r.next..start + |body|];
    Tails(input, r.next, start + |body|);
    if r.inDefault {
      ReadDefaultChar(body, left, r.name, r.default);
    } else {
      ReadNameChar(body, left, r.name);
    }
  }

  lemma ReadsOn(input: string, start: nat, body: string, r: Reader)
    requires Inside(input, start, body, r) && r.next < start + |body|
    requires Separates(input[r.next..]) <==> Separates(input[r.next..start + |body|])
    ensures Inside(input, start, body, Turn(input, r))
  {
    if Separates(input[r.next..]) {
      ReadsOverSeparator(input, start, body, r);
    } else {
      ReadsOverChar(input, start, body, r);
    }
  }

  lemma TurnReadsOn(input: string, start: nat, body: string, r: Reader)
    requires start <= |input| && body == Body(input[start..]) && Inside(input, start, body, r)
    requires r.next < |input| && input[r.next] != '}'
    ensures Inside(input, start, body, Turn(input, r))
  {
    BodyAt(input, start, r.next);
    SeparatesInside(input, start, r.next);
    ReadsOn(input, start, body, r);
  }

  /** The body of the inner loop, but for the closing brace. */
  method TakeTurn(input: string, reader: Reader) returns (r: Reader)
    requires reader.next < |input|
    ensures r == Turn(input, reader)
  {
    r := reader;
    var inner := input[r.next];
    if inner == ':' && r.next + 1 < |input| && input[r.next + 1] == '-' {
      r := r.(next := r.next + 2, inDefault := true);
    } else if r.inDefault {
      r := r.(next := r.next + 1, default := r.default + [inner]);
    } else {
      r := r.(next := r.next + 1, name := r.name + [inner]);
    }
  }

  /** The inner loop, up to and including the closing brace. */
  method ReadPlaceholder(input: string, start: nat) returns (r: Reader, foundClose: bool)
    requires start <= |input|
    ensures Read(input, start, r, foundClose)
  {
    foundClose := false;
    r := Reader(start, "", "", false);
    ghost var body := Body(input[start..]);
    ReadingStarts(input, start);
    while r.next < |input|
      invariant Inside(input, start, body, r)
      decreases |input| - r.next
    {
      if input[r.next] == '}' {
        foundClose := true;
        break;
      }
      TurnReadsOn(input, start, body, r);
      r := TakeTurn(input, r);
    }
    ReadingEnds(input, start, r);
    if foundClose {
      r := r.(next := r.next + 1);
    }
  }

  /** What is still to be expanded, after what has been put out. */
  ghost predicate Outside(lookup: Lookup, input: string, next: nat, output: string) {
    next <= |input| && output + Expanded(lookup, input[next..]) == Expanded(lookup, input)
  }

  lemma CopiesChar(lookup: Lookup, input: string, next: nat, output: string)
    requires Outside(lookup, input, next, output) && next < |input| && !Opens(input[next..])
    ensures Outside(lookup, input, next + 1, output + [input[next]])
  {
    assert input[next..][1..] == input[next + 1..];
  }

  /** The first step of the expansion of an opening placeholder. */
  lemma ExpandedOpen(lookup: Lookup, rest: string)
    requires Opens(rest)
    ensures var body := Body(rest[2..]);
            Expanded(lookup, rest) == if |body| < |rest| - 2 then Replacement(lookup, body) + Expanded(lookup, rest[|body| + 3..])
                                      else Restored(body)
  {
    var body := Body(rest[2..]);
    if |body| < |rest| - 2 {
      assert rest[2..][|body| + 1..] == rest[|body| + 3..];
    }
  }

  lemma ExpandedChar(lookup: Lookup, rest: string)
    requires rest != "" && !Opens(rest)
    ensures Expanded(lookup, rest) == [rest[0]] + Expanded(lookup, rest[1..])
  {
  }

  lemma ReadReplaces(lookup: Lookup, input: string, start: nat, r: Reader)
    requires Read(input, start, r, true)
    ensures var body := Body(input[start..]);
            && r.next == start + |body| + 1 <= |input|
            && Replacement(lookup, body) == if Value(lookup, r.name) == "" then r.default else Value(lookup, r.name)
  {
  }

  lemma ExpandedClosed(lookup: Lookup, input: string, next: nat, r: Reader)
    requires next < |input| && Opens(input[next..]) && Read(input, next + 2, r, true)
    ensures r.next <= |input|
    ensures Expanded(lookup, input[next..])
            == (if Value(lookup, r.name) == "" then r.default else Value(lookup, r.name)) + Expanded(lookup, input[r.next..])
  {
    var rest := input[next..];
    ReadReplaces(lookup, input, next + 2, r);
    assert rest[2..] == input[next + 2..];
    var body := Body(rest[2..]);
    ExpandedOpen(lookup, rest);
    assert rest[|body| + 3..] == input[r.next..];
  }

  lemma Continues(lookup: Lookup, input: string, next: nat, output: string, piece: string, after: nat)
    requires Outside(lookup, input, next, output) && after <= |input|
    requires Expanded(lookup, input[next..]) == piece + Expanded(lookup, input[after..])
    ensures Outside(lookup, input, after, output + piece)
  {
    Appended(output, piece, Expanded(lookup, input[after..]));
  }

  lemma ReplacesClosed(lookup: Lookup, input: string, next: nat, output: string, r: Reader)
    requires Outside(lookup, input, next, output) && next < |input| && Opens(input[next..])
    requires Read(input, next + 2, r, true)
    ensures Outside(lookup, input, r.next, output + if Value(lookup, r.name) == "" then r.default else Value(lookup, r.name))
  {
    ExpandedClosed(lookup, input, next, r);
    Continues(lookup, input, next, output, if Value(lookup, r.name) == "" then r.default else Value(lookup, r.name), r.next);
  }

  lemma ReplacesOpen(lookup: Lookup, input: string, next: nat, output: string, r: Reader)
    requires Outside(lookup, input, next, output) && next < |input| && Opens(input[next..])
    requires Read(input, next + 2, r, false)
    ensures Outside(lookup, input, r.next, output + ("${" + (r.name + ((if r.inDefault then ":-" else "") + r.default))))
  {
    var rest := input[next..];
    assert rest[2..] == input[next + 2..];
    ExpandedOpen(lookup, rest);
    assert input[r.next..] == "";
    assert output + Restored(Body(rest[2..])) + "" == output + Expanded(lookup, rest);
  }

  lemma Appended(a: string, b: string, c: string)
    ensures a + b + c == a + (b + c)
  {
  }

  method ExpandEnvVarsWithLookup(input: string, lookup: Lookup) returns (output: string)
    ensures output == Expanded(lookup, input)
  {
    output := "";
    var next := 0;
    assert input[0..] == input;
    while next < |input|
      invariant Outside(lookup, input, next, output)
    {
      var ch := input[next];
      if ch == '$' && next + 1 < |input| && input[next + 1] == '{' {
        var r, foundClose := ReadPlaceholder(input, next + 2);
        if foundClose {
          ReplacesClosed(lookup, input, next, output, r);
          var value := Value(lookup, r.name);
          output := output + if value == "" then r.default else value;
        } else {
          ReplacesOpen(lookup, input, next, output, r);
          output := output + ("${" + (r.name + ((if r.inDefault then ":-" else "") + r.default)));
        }
        next := r.next;
      } else {
        CopiesChar(lookup, input, next, output);
        output := output + [ch];
        next := next + 1;
      }
    }
    assert input[next..] == "";
  }

  // ----- What expansion means -----

  /** Text without `${` is left alone. */
  lemma {:induction false} PlainTextStays(lookup: Lookup, s: string)
    requires forall i :: 0 <= i < |s| ==> !Opens(s[i..])
    ensures Expanded(lookup, s) == s
  {
    if s != "" {
      assert s[0..] == s;
      assert !Opens(s);
      forall i | 0 <= i < |s[1..]|
        ensures !Opens(s[1..][i..])
      {
        assert s[1..][i..] == s[i + 1..];
        assert !Opens(s[i + 1..]);
      }
      PlainTextStays(lookup, s[1..]);
    }
  }

  /** Every placeholder the text opens is closed in it. */
  ghost predicate Closed(s: string)
    decreases |s|
  {
    s != "" ==>
      if Opens(s) then |Body(s[2..])| < |s| - 2 && Closed(s[|Body(s[2..])| + 3..])
      else Closed(s[1..])
  }

  lemma {:induction false} BodyOfLonger(s: string, t: string)
    ensures |Body(s)| < |s| ==> Body(s + t) == Body(s)
    ensures |Body(s)| == |s| ==> Body(s + t) == s + Body(t)
  {
    if s == "" {
      assert s + t == t;
    } else if s[0] != '}' {
      assert (s + t)[1..] == s[1..] + t;
      BodyOfLonger(s[1..], t);
      assert Body(s + t) == [s[0]] + Body(s[1..] + t);
    }
  }

  /** The two texts do not form a `${` where they meet. */
  predicate NoneAtSeam(a: string, b: string) {
    !(a != "" && b != "" && a[|a| - 1] == '$' && b[0] == '{')
  }

  lemma TailOfSum(a: string, b: string, i: nat)
    requires i <= |a|
    ensures (a + b)[i..] == a[i..] + b
  {
  }

  /** A placeholder closed in `a` expands the same whatever follows `a`. */
  lemma FirstPlaceholder(lookup: Lookup, a: string, b: string)
    requires Opens(a) && |Body(a[2..])| < |a| - 2
    ensures Expanded(lookup, a + b) == Replacement(lookup, Body(a[2..])) + Expanded(lookup, a[|Body(a[2..])| + 3..] + b)
  {
    TailOfSum(a, b, 2);
    BodyOfLonger(a[2..], b);
    ExpandedOpen(lookup, a + b);
    TailOfSum(a, b, |Body(a[2..])| + 3);
  }

  lemma PlaceholderInParts(lookup: Lookup, a: string, rest: string, b: string)
    requires Opens(a) && |Body(a[2..])| < |a| - 2 && rest == a[|Body(a[2..])| + 3..]
    requires Expanded(lookup, rest + b) == Expanded(lookup, rest) + Expanded(lookup, b)
    ensures Expanded(lookup, a + b) == Expanded(lookup, a) + Expanded(lookup, b)
  {
    var replacement := Replacement(lookup, Body(a[2..]));
    FirstPlaceholder(lookup, a, b);
    ExpandedOpen(lookup, a);
    Appended(replacement, Expanded(lookup, rest), Expanded(lookup, b));
  }

  lemma CharInParts(lookup: Lookup, a: string, b: string)
    requires a != "" && !Opens(a) && NoneAtSeam(a, b)
    requires Expanded(lookup, a[1..] + b) == Expanded(lookup, a[1..]) + Expanded(lookup, b)
    ensures Expanded(lookup, a + b) == Expanded(lookup, a) + Expanded(lookup, b)
  {
    TailOfBoth(a, b);
    ExpandedChar(lookup, a);
    ExpandedChar(lookup, a + b);
    Appended([a[0]], Expanded(lookup, a[1..]), Expanded(lookup, b));
  }

  lemma TailOfBoth(a: string, b: string)
    requires a != "" && !Opens(a) && NoneAtSeam(a, b)
    ensures !Opens(a + b) && (a + b)[0] == a[0] && (a + b)[1..] == a[1..] + b
  {
  }

  /** After closed text, whatever follows is expanded on its own. */
  lemma {:induction false} ExpandsInParts(lookup: Lookup, a: string, b: string)
    requires Closed(a) && NoneAtSeam(a, b)
    ensures Expanded(lookup, a + b) == Expanded(lookup, a) + Expanded(lookup, b)
    decreases |a|
  {
    if a == "" {
      assert a + b == b;
    } else if Opens(a) {
      var rest := a[|Body(a[2..])| + 3..];
      ExpandsInParts(lookup, rest, b);
      PlaceholderInParts(lookup, a, rest, b);
    } else {
      ExpandsInParts(lookup, a[1..], b);
      CharInParts(lookup, a, b);
    }
  }

  ghost predicate ComposesWith(lookup: Lookup, a: string, b: string) {
    Expanded(lookup, a + b) == Expanded(lookup, a) + Expanded(lookup, b)
  }

  function Unset(): Lookup {
    (name: string) => None
  }

  lemma OpenEndTakesIn(a: string)
    requires Opens(a) && |Body(a[2..])| == |a| - 2
    ensures Expanded(Unset(), a + "}") == DefaultOf(a[2..]) && Expanded(Unset(), a) == Restored(a[2..])
  {
    var body := a[2..];
    assert Body(body) == body;
    BodyUpToBrace(body, "");
    assert (a + "}")[2..] == body + ("}" + "");
    ExpandedOpen(Unset(), a);
    ExpandedOpen(Unset(), a + "}");
    assert (a + "}")[|body| + 3..] == "";
    assert Replacement(Unset(), body) + "" == DefaultOf(body);
  }

  /** Text that leaves a placeholder open takes in what follows. */
  lemma {:induction false} OpenTextTakesIn(a: string)
    requires !Closed(a)
    ensures |Expanded(Unset(), a + "}")| < |Expanded(Unset(), a)|
    decreases |a|
  {
    if Opens(a) {
      if |Body(a[2..])| < |a| - 2 {
        FirstPlaceholder(Unset(), a, "}");
        ExpandedOpen(Unset(), a);
        OpenTextTakesIn(a[|Body(a[2..])| + 3..]);
      } else {
        OpenEndTakesIn(a);
      }
    } else {
      assert !Opens(a + "}") && (a + "}")[1..] == a[1..] + "}";
      OpenTextTakesIn(a[1..]);
    }
  }

  /** Text is expanded independently of whatever follows it, in every environment, exactly when it is closed. */
  lemma IndependentExactlyWhenClosed(a: string)
    ensures Closed(a) <==> forall lookup, b | NoneAtSeam(a, b) :: ComposesWith(lookup, a, b)
  {
    if Closed(a) {
      forall lookup, b | NoneAtSeam(a, b)
        ensures ComposesWith(lookup, a, b)
      {
        ExpandsInParts(lookup, a, b);
      }
    } else {
      OpenTextTakesIn(a);
      assert NoneAtSeam(a, "}") && !ComposesWith(Unset(), a, "}");
    }
  }

  // ----- The two forms of a placeholder -----

  /** How many `:-` a text holds. */
  function Separators(s: string): nat {
    if s == "" then 0 else (if Separates(s) then 1 else 0) + Separators(s[1..])
  }

  lemma {:induction false} NoSeparatorNoDefault(name: string, rest: string)
    requires Separators(name) == 0 && (rest == "" || Separates(rest))
    ensures NameOf(name + rest) == name
    ensures HasDefault(name + rest) <==> rest != ""
  {
    if name == "" {
      assert name + rest == rest;
    } else {
      assert (name + rest)[1..] == name[1..] + rest;
      assert !Separates(name + rest) by {
        if |name| >= 2 {
          assert !Separates(name);
        }
      }
      NoSeparatorNoDefault(name[1..], rest);
      NameAfter(name + rest);
    }
  }

  lemma {:induction false} StrippedLength(s: string)
    ensures |Stripped(s)| == |s| - 2 * Separators(s)
    ensures Separators(s) == 0 ==> Stripped(s) == s
    decreases |s|
  {
    if s != "" {
      if Separates(s) {
        assert s[1..][1..] == s[2..];
        StrippedLength(s[2..]);
      } else {
        StrippedLength(s[1..]);
      }
    }
  }

  lemma {:induction false} WholeBody(body: string)
    requires '}' !in body
    ensures Body(body) == body
  {
    if body != "" {
      WholeBody(body[1..]);
    }
  }

  lemma BodyUpToBrace(body: string, rest: string)
    requires '}' !in body
    ensures Body(body + ("}" + rest)) == body
  {
    BodyOfLonger(body, "}" + rest);
    WholeBody(body);
    assert Body("}" + rest) == "";
    assert body + "" == body;
  }

  lemma PlaceholderAndRest(lookup: Lookup, body: string, rest: string)
    requires '}' !in body
    ensures Expanded(lookup, "${" + body + "}" + rest) == Replacement(lookup, body) + Expanded(lookup, rest)
  {
    var s := "${" + body + "}" + rest;
    assert s[2..] == body + ("}" + rest);
    BodyUpToBrace(body, rest);
    ExpandedOpen(lookup, s);
    assert s[|body| + 3..] == rest;
  }

  /** `${NAME}` gives what the look-up returns, or nothing if it returns nothing. */
  lemma VariableExpands(lookup: Lookup, name: string, rest: string)
    requires '}' !in name && Separators(name) == 0
    ensures lookup(name).Some? ==> Expanded(lookup, "${" + name + "}" + rest) == lookup(name).value + Expanded(lookup, rest)
    ensures lookup(name).None? ==> Expanded(lookup, "${" + name + "}" + rest) == Expanded(lookup, rest)
  {
    PlaceholderAndRest(lookup, name, rest);
    NoSeparatorNoDefault(name, "");
    assert name + "" == name;
    assert "" + Expanded(lookup, rest) == Expanded(lookup, rest);
  }

  lemma ReplacedByDefault(lookup: Lookup, name: string, rest: string)
    requires Separators(name) == 0 && Separates(rest)
    ensures Replacement(lookup, name + rest) == if Value(lookup, name) == "" then Stripped(rest[2..]) else Value(lookup, name)
  {
    var body := name + rest;
    NoSeparatorNoDefault(name, rest);
    assert body[|name| + 2..] == rest[2..];
    assert DefaultOf(body) == Stripped(rest[2..]);
  }

  /** The look-up returns something that is not empty. */
  predicate IsSet(lookup: Lookup, name: string) {
    lookup(name).Some? && lookup(name).value != ""
  }

  /** `${NAME:-default}` gives what the look-up returns if that is not empty, and otherwise the default without any `:-`
      it may hold. */
  lemma DefaultExpands(lookup: Lookup, name: string, default: string, rest: string)
    requires '}' !in name && Separators(name) == 0 && '}' !in default
    ensures var s := "${" + name + ":-" + default + "}" + rest;
            Expanded(lookup, s) == (if IsSet(lookup, name) then lookup(name).value else Stripped(default)) + Expanded(lookup, rest)
  {
    var body := name + (":-" + default);
    assert "${" + name + ":-" + default + "}" + rest == "${" + body + "}" + rest;
    ReplacedByDefault(lookup, name, ":-" + default);
    assert (":-" + default)[2..] == default;
    PlaceholderAndRest(lookup, body, rest);
  }

  /** What `Stripped` does: it keeps a text up to its first `:-`, drops that, and goes on. */
  lemma {:induction false} StrippedInParts(s: string, rest: string)
    requires Separators(s) == 0
    ensures Stripped(s) == s
    ensures Stripped(s + (":-" + rest)) == s + Stripped(rest)
  {
    var d := ":-" + rest;
    assert Separates(d) && d[2..] == rest;
    if s == "" {
      assert s + d == d;
    } else {
      StrippedInParts(s[1..], rest);
      assert (s + d)[1..] == s[1..] + d;
      assert !Separates(s + d) by {
        if |s| >= 2 {
          assert !Separates(s);
        }
      }
      Appended([s[0]], s[1..], Stripped(rest));
    }
  }

  /** A default that is used comes out as it stands exactly when it holds no `:-` itself. */
  lemma DefaultIsVerbatim(lookup: Lookup, name: string, default: string, rest: string)
    requires '}' !in name && Separators(name) == 0 && '}' !in default && !IsSet(lookup, name)
    ensures Expanded(lookup, "${" + name + ":-" + default + "}" + rest) == default + Expanded(lookup, rest)
            <==> Separators(default) == 0
  {
    DefaultExpands(lookup, name, default, rest);
    StrippedLength(default);
    if Separators(default) != 0 {
      assert |Stripped(default) + Expanded(lookup, rest)| != |default + Expanded(lookup, rest)|;
    }
  }

  lemma StrippedNested()
    ensures Stripped("b:-c") == "bc"
  {
    assert !Separates("b:-c") && "b:-c"[1..] == ":-c";
    assert Separates(":-c") && ":-c"[2..] == "c";
    assert !Separates("c") && "c"[1..] == "";
  }

  /** A default nested as a shell would nest it is not kept: its `:-` is lost. */
  lemma NestedDefaultIsMangled(lookup: Lookup, name: string, rest: string)
    requires '}' !in name && Separators(name) == 0 && !IsSet(lookup, name)
    ensures Expanded(lookup, "${" + name + ":-" + "b:-c" + "}" + rest) == "bc" + Expanded(lookup, rest)
  {
    DefaultExpands(lookup, name, "b:-c", rest);
    StrippedNested();
  }

  // ----- Unterminated placeholders -----

  lemma {:induction false} SeparatorsAfterName(body: string)
    ensures if HasDefault(body) then Separators(body) == 1 + Separators(body[|NameOf(body)| + 2..]) else Separators(body) == 0
  {
    if body != "" {
      if Separates(body) {
        assert body[1..][1..] == body[2..];
        assert NameOf(body) == "";
      } else {
        SeparatorsAfterName(body[1..]);
        NameAfter(body);
        if HasDefault(body) {
          assert body[|NameOf(body)| + 2..] == body[1..][|NameOf(body[1..])| + 2..];
        }
      }
    }
  }

  lemma SplitAtPair(s: string, n: nat)
    requires n + 1 < |s|
    ensures s == s[..n] + ([s[n], s[n + 1]] + s[n + 2..])
  {
  }

  lemma NameAndDefault(body: string)
    requires HasDefault(body)
    ensures body == NameOf(body) + (":-" + body[|NameOf(body)| + 2..])
  {
    var n := |NameOf(body)|;
    assert Separates(body[n..]) && body[n..][0] == body[n] && body[n..][1] == body[n + 1];
    SplitAtPair(body, n);
    assert [body[n], body[n + 1]] == ":-";
  }

  lemma RestoredLength(body: string)
    ensures |Restored(body)| == 2 + |NameOf(body)| + (if HasDefault(body) then 2 else 0) + |DefaultOf(body)|
  {
  }

  lemma RestoredIsVerbatim(body: string)
    ensures Restored(body) == "${" + body <==> Separators(body) <= 1
  {
    var name := NameOf(body);
    SeparatorsAfterName(body);
    if HasDefault(body) {
      StrippedLength(body[|name| + 2..]);
      if Separators(body) <= 1 {
        NameAndDefault(body);
      } else {
        RestoredLength(body);
      }
    } else {
      assert name + ("" + "") == name == body;
    }
  }

  /** A placeholder that is never closed is reproduced as it stands exactly when it holds at most one `:-`. */
  lemma UnterminatedIsVerbatim(lookup: Lookup, body: string)
    requires '}' !in body
    ensures Expanded(lookup, "${" + body) == "${" + body <==> Separators(body) <= 1
  {
    assert ("${" + body)[2..] == body;
    WholeBody(body);
    ExpandedOpen(lookup, "${" + body);
    RestoredIsVerbatim(body);
  }

  /** Otherwise it loses every `:-` after the first. */
  lemma UnterminatedLosesSeparators(lookup: Lookup, name: string, default: string)
    requires '}' !in name && Separators(name) == 0 && '}' !in default
    ensures Expanded(lookup, "${" + (name + (":-" + default))) == "${" + (name + (":-" + Stripped(default)))
  {
    var d := ":-" + default;
    var body := name + d;
    assert Separates(d) && d[2..] == default;
    assert ("${" + body)[2..] == body;
    WholeBody(body);
    ExpandedOpen(lookup, "${" + body);
    NoSeparatorNoDefault(name, d);
    assert body[|name| + 2..] == d[2..];
  }
}
