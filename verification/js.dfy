/** The few JavaScript semantics the workspace sidebar leans on: truthiness of
    optional strings and numbers, `undefined` for an index past the end of an
    array, `Array.prototype.filter(t => t)` and `Array.prototype.join`.
    `Split` is the inverse of `Join`, used to state the round trip of `Join`. */
module Js {
  import opened Wrappers

  /** A string is truthy when it is defined and not the empty string. */
  predicate IsTruthyString(s: Option<string>) {
    s.Some? && s.value != ""
  }

  /** A number is truthy when it is defined and not zero. */
  predicate IsTruthyNumber(n: Option<int>) {
    n.Some? && n.value != 0
  }

  /** `xs[k]`, which is `undefined` past the end of the array. */
  function At<T>(xs: seq<T>, k: nat): (r: Option<T>)
    ensures r.Some? <==> k < |xs|
    ensures r.Some? ==> r.value == xs[k]
  {
    if k < |xs| then Some(xs[k]) else None
  }

  /** `xs.filter((t) => t)` over optional strings: drops `undefined` and "". */
  function KeepTruthy(xs: seq<Option<string>>): (r: seq<string>)
    ensures |r| <= |xs|
    ensures forall k :: 0 <= k < |r| ==> r[k] != ""
    ensures forall s :: s in r <==> s != "" && Some(s) in xs
    ensures r == [] <==> forall k :: 0 <= k < |xs| ==> !IsTruthyString(xs[k])
  {
    if xs == [] then []
    else
      assert xs == [xs[0]] + xs[1..];
      if IsTruthyString(xs[0]) then [xs[0].value] + KeepTruthy(xs[1..])
      else KeepTruthy(xs[1..])
  }

  /** Filtering commutes with concatenation, so it keeps the input order. */
  lemma {:induction false} KeepTruthyAppend(a: seq<Option<string>>, b: seq<Option<string>>)
    ensures KeepTruthy(a + b) == KeepTruthy(a) + KeepTruthy(b)
  {
    if a == [] {
      assert a + b == b;
    } else {
      assert (a + b)[1..] == a[1..] + b;
      KeepTruthyAppend(a[1..], b);
    }
  }

  /** When every entry is truthy, filtering keeps them all. */
  lemma {:induction false} KeepTruthyOfTruthy(xs: seq<Option<string>>)
    requires forall k :: 0 <= k < |xs| ==> IsTruthyString(xs[k])
    ensures |KeepTruthy(xs)| == |xs|
    ensures forall k :: 0 <= k < |xs| ==> KeepTruthy(xs)[k] == xs[k].value
  {
    if xs != [] {
      KeepTruthyOfTruthy(xs[1..]);
    }
  }

  /** Sum of the lengths of all parts. */
  function TotalLength(parts: seq<string>): nat {
    if parts == [] then 0 else |parts[0]| + TotalLength(parts[1..])
  }

  /** `parts.join(sep)` for a one-character separator. */
  function Join(parts: seq<string>, sep: char): (r: string)
    ensures parts == [] ==> r == ""
    ensures |parts| > 0 ==> |r| == TotalLength(parts) + |parts| - 1
    ensures |parts| > 0 ==> parts[0] <= r
  {
    if parts == [] then ""
    else if |parts| == 1 then parts[0]
    else parts[0] + [sep] + Join(parts[1..], sep)
  }

  lemma JoinThree(a: string, b: string, c: string, sep: char)
    ensures Join([a, b, c], sep) == a + [sep] + b + [sep] + c
  {
    assert [a, b, c][1..] == [b, c];
    assert [b, c][1..] == [c];
    assert Join([b, c], sep) == b + [sep] + c;
    assert Join([a, b, c], sep) == a + [sep] + (b + [sep] + c);
  }

  /** `s.split(sep)` for a one-character separator: the empty string splits
      into one empty piece. */
  function Split(s: string, sep: char): (r: seq<string>)
    ensures |r| >= 1
  {
    if s == [] then [""]
    else
      var rest := Split(s[1..], sep);
      if s[0] == sep then [""] + rest
      else [[s[0]] + rest[0]] + rest[1..]
  }

  lemma {:induction false} SplitWithoutSeparator(p: string, sep: char)
    requires sep !in p
    ensures Split(p, sep) == [p]
  {
    if p != [] {
      SplitWithoutSeparator(p[1..], sep);
      assert [p[0]] + p[1..] == p;
    }
  }

  lemma {:induction false} SplitAtFirstSeparator(p: string, t: string, sep: char)
    requires sep !in p
    ensures Split(p + [sep] + t, sep) == [p] + Split(t, sep)
  {
    var s := p + [sep] + t;
    if p == [] {
      assert s[0] == sep && s[1..] == t;
    } else {
      assert s[0] == p[0];
      assert s[1..] == p[1..] + [sep] + t;
      SplitAtFirstSeparator(p[1..], t, sep);
      assert [p[0]] + p[1..] == p;
    }
  }

  /** Round trip: splitting a join of separator-free parts gives the parts back. */
  lemma {:induction false} SplitJoin(parts: seq<string>, sep: char)
    requires |parts| > 0
    requires forall k :: 0 <= k < |parts| ==> sep !in parts[k]
    ensures Split(Join(parts, sep), sep) == parts
  {
    if |parts| == 1 {
      SplitWithoutSeparator(parts[0], sep);
    } else {
      SplitJoin(parts[1..], sep);
      SplitAtFirstSeparator(parts[0], Join(parts[1..], sep), sep);
      assert [parts[0]] + parts[1..] == parts;
    }
  }
}
