/** The sequence and string primitives that `String.logFilePath` and
    `ViewLogger.body` are built from: Foundation's `components(separatedBy:)`,
    the standard library's `joined(separator:)`, `lastIndex(of:)`,
    `suffix(_:)` and `last`, each as a total function. */
module Components {

  datatype Option<+T> = None | Some(value: T)

  /** Number of occurrences of `c` in `s`. */
  function Occurrences(s: string, c: char): nat
  {
    if |s| == 0 then 0 else (if s[0] == c then 1 else 0) + Occurrences(s[1..], c)
  }

  /** `s.components(separatedBy: [sep])`: the pieces of `s` between the
      occurrences of `sep`, empty pieces included, so there is always one
      piece more than there are separators. */
  function Split(s: string, sep: char): (parts: seq<string>)
    ensures |parts| == Occurrences(s, sep) + 1
    ensures forall i :: 0 <= i < |parts| ==> sep !in parts[i]
    decreases |s|
  {
    if |s| == 0 then [""]
    else
      var rest := Split(s[1..], sep);
      if s[0] == sep then [""] + rest
      else [[s[0]] + rest[0]] + rest[1..]
  }

  /** `parts.joined(separator: sep)`; the empty sequence joins to "". The
      joined string begins with the first piece. */
  function Join(parts: seq<string>, sep: string): (s: string)
    ensures |parts| == 0 ==> s == ""
    ensures |parts| >= 1 ==> |parts[0]| <= |s| && s[..|parts[0]|] == parts[0]
  {
    if |parts| == 0 then ""
    else if |parts| == 1 then parts[0]
    else parts[0] + sep + Join(parts[1..], sep)
  }

  /** `xs.lastIndex(of: x)`: the greatest index holding `x`, if any. */
  function LastIndexOf<T(==)>(xs: seq<T>, x: T): (r: Option<nat>)
    ensures r.Some? ==> r.value < |xs| && xs[r.value] == x
    ensures r.Some? ==> forall j :: r.value < j < |xs| ==> xs[j] != x
    ensures r.None? <==> x !in xs
  {
    if |xs| == 0 then None
    else if xs[|xs| - 1] == x then Some(|xs| - 1)
    else LastIndexOf(xs[..|xs| - 1], x)
  }

  /** `xs.suffix(n)`: the last `n` elements, or all of them when there are
      fewer than `n`. */
  function Suffix<T>(xs: seq<T>, n: nat): (r: seq<T>)
    ensures |r| == if n < |xs| then n else |xs|
    ensures forall i :: 0 <= i < |r| ==> r[i] == xs[|xs| - |r| + i]
  {
    if n >= |xs| then xs else xs[|xs| - n..]
  }

  /** `xs.last`: the final element, nil only for an empty sequence. */
  function Last<T>(xs: seq<T>): (r: Option<T>)
    ensures r.Some? <==> |xs| > 0
    ensures r.Some? ==> r.value == xs[|xs| - 1]
  {
    if |xs| == 0 then None else Some(xs[|xs| - 1])
  }

  /** Splitting and joining again with the same separator gives back the
      original string. */
  lemma {:induction false} JoinSplit(s: string, sep: char)
    ensures Join(Split(s, sep), [sep]) == s
    decreases |s|
  {
    if |s| > 0 {
      var rest := Split(s[1..], sep);
      JoinSplit(s[1..], sep);
      assert s == [s[0]] + s[1..];
      if s[0] != sep && |rest| > 1 {
        assert ([s[0]] + rest[0]) + [sep] + Join(rest[1..], [sep])
            == [s[0]] + (rest[0] + [sep] + Join(rest[1..], [sep]));
      }
    }
  }

  /** A prefix free of the separator is glued onto the first piece. */
  lemma {:induction false} SplitGlue(a: string, rest: string, sep: char)
    requires sep !in a
    ensures Split(a + rest, sep) == [a + Split(rest, sep)[0]] + Split(rest, sep)[1..]
    decreases |a|
  {
    if |a| > 0 {
      assert (a + rest)[1..] == a[1..] + rest;
      SplitGlue(a[1..], rest, sep);
      var parts, inner := Split(rest, sep), Split(a[1..] + rest, sep);
      assert inner[0] == a[1..] + parts[0] && inner[1..] == parts[1..];
      assert a == [a[0]] + a[1..];
      assert [a[0]] + inner[0] == a + parts[0];
    } else {
      var parts := Split(rest, sep);
      assert a + rest == rest && a + parts[0] == parts[0];
      assert parts == [parts[0]] + parts[1..];
    }
  }

  /** Joining separator-free pieces and splitting again gives back the
      pieces. */
  lemma {:induction false} SplitJoin(parts: seq<string>, sep: char)
    requires |parts| >= 1
    requires forall i :: 0 <= i < |parts| ==> sep !in parts[i]
    ensures Split(Join(parts, [sep]), sep) == parts
  {
    if |parts| == 1 {
      SplitGlue(parts[0], "", sep);
      assert parts[0] + "" == parts[0];
    } else {
      var tail := Join(parts[1..], [sep]);
      SplitJoin(parts[1..], sep);
      assert parts[0] + [sep] + tail == parts[0] + ([sep] + tail);
      SplitGlue(parts[0], [sep] + tail, sep);
      assert ([sep] + tail)[0] == sep && ([sep] + tail)[1..] == tail;
      assert Split([sep] + tail, sep) == [""] + parts[1..];
      assert parts[0] + "" == parts[0];
      assert parts == [parts[0]] + parts[1..];
    }
  }

  /** A string without the separator is one piece. */
  lemma SplitWhole(s: string, sep: char)
    requires sep !in s
    ensures Split(s, sep) == [s]
  {
    SplitGlue(s, "", sep);
    assert s + "" == s;
  }

  /** A character in neither the pieces nor the separator is not in the
      joined string. */
  lemma {:induction false} JoinExcludes(parts: seq<string>, sep: string, c: char)
    requires c !in sep
    requires forall i :: 0 <= i < |parts| ==> c !in parts[i]
    ensures c !in Join(parts, sep)
  {
    if |parts| > 1 {
      JoinExcludes(parts[1..], sep, c);
    }
  }

  /** The joined string ends with the separator and the last piece. */
  lemma {:induction false} JoinSnoc(parts: seq<string>, sep: string)
    requires |parts| >= 2
    ensures Join(parts, sep) == Join(parts[..|parts| - 1], sep) + sep + parts[|parts| - 1]
  {
    if |parts| > 2 {
      JoinSnoc(parts[1..], sep);
      assert parts[1..][..|parts| - 2] == parts[..|parts| - 1][1..];
    }
  }

  /** The last piece of a split is the tail of the string after its last
      separator, or the whole string when there is no separator. */
  lemma SplitLastIsTail(s: string, sep: char)
    ensures var last := Split(s, sep)[|Split(s, sep)| - 1];
      && |last| <= |s| && s[|s| - |last|..] == last
      && (|last| == |s| || s[|s| - |last| - 1] == sep)
  {
    var parts := Split(s, sep);
    var last := parts[|parts| - 1];
    JoinSplit(s, sep);
    if |parts| > 1 {
      JoinSnoc(parts, [sep]);
      var init := Join(parts[..|parts| - 1], [sep]);
      assert s == init + [sep] + last;
      assert s[|s| - |last|..] == last;
    }
  }
}
