/** Small value wrappers shared by every module of the model. */
module Base {

  /** A value that may be absent (an `undefined` field, a `find` that found nothing). */
  datatype Option<+T> = None | Some(value: T)

  /** The outcome of an operation that may throw: `Failure` carries what was thrown. */
  datatype Result<+R, +E> = Success(value: R) | Failure(error: E)

  /** `xs.filter(keep)`: the elements of `xs` that satisfy `keep`, in their original order. */
  function Filter<T>(xs: seq<T>, keep: T -> bool): (r: seq<T>)
    ensures |r| <= |xs|
  {
    if xs == [] then [] else (if keep(xs[0]) then [xs[0]] else []) + Filter(xs[1..], keep)
  }

  /** `xs` can be obtained from `ys` by deleting elements: order is kept, nothing is invented. */
  ghost predicate Subsequence<T>(xs: seq<T>, ys: seq<T>)
    decreases |ys|
  {
    if xs == [] then true
    else if ys == [] then false
    else (xs[0] == ys[0] && Subsequence(xs[1..], ys[1..])) || Subsequence(xs, ys[1..])
  }

  /** An element is kept by `Filter` exactly when it occurs in the input and passes the test. */
  lemma {:induction false} FilterMembership<T>(xs: seq<T>, keep: T -> bool, x: T)
    ensures x in Filter(xs, keep) <==> x in xs && keep(x)
  {
    if xs != [] {
      FilterMembership(xs[1..], keep, x);
      assert xs == [xs[0]] + xs[1..];
    }
  }

  /** Filtering a concatenation filters each part. */
  lemma {:induction false} FilterAppend<T>(xs: seq<T>, ys: seq<T>, keep: T -> bool)
    ensures Filter(xs + ys, keep) == Filter(xs, keep) + Filter(ys, keep)
  {
    if xs == [] {
      assert xs + ys == ys;
    } else {
      var head := if keep(xs[0]) then [xs[0]] else [];
      assert (xs + ys)[0] == xs[0];
      assert (xs + ys)[1..] == xs[1..] + ys;
      calc {
        Filter(xs + ys, keep);
        head + Filter(xs[1..] + ys, keep);
        { FilterAppend(xs[1..], ys, keep); }
        head + (Filter(xs[1..], keep) + Filter(ys, keep));
        (head + Filter(xs[1..], keep)) + Filter(ys, keep);
      }
    }
  }

  /** A filter that keeps every element returns its input unchanged. */
  lemma {:induction false} FilterKeepsAll<T>(xs: seq<T>, keep: T -> bool)
    requires forall i :: 0 <= i < |xs| ==> keep(xs[i])
    ensures Filter(xs, keep) == xs
  {
    if xs != [] {
      FilterKeepsAll(xs[1..], keep);
      assert xs == [xs[0]] + xs[1..];
    }
  }

  /** A filtered sequence is a subsequence of its input: the relative order is preserved. */
  lemma {:induction false} FilterIsSubsequence<T>(xs: seq<T>, keep: T -> bool)
    ensures Subsequence(Filter(xs, keep), xs)
  {
    if xs != [] {
      FilterIsSubsequence(xs[1..], keep);
      var rest := Filter(xs[1..], keep);
      if keep(xs[0]) {
        assert Filter(xs, keep) == [xs[0]] + rest;
        assert ([xs[0]] + rest)[1..] == rest;
      } else {
        assert Filter(xs, keep) == rest;
        SubsequenceOfTail(rest, xs);
      }
    }
  }

  /** Something that is a subsequence of the tail is a subsequence of the whole. */
  lemma SubsequenceOfTail<T>(xs: seq<T>, ys: seq<T>)
    requires ys != [] && Subsequence(xs, ys[1..])
    ensures Subsequence(xs, ys)
  {
  }
}

/** The JavaScript string operations the source relies on, over `seq<char>`. */
module Text {

  /** `toLowerCase` on one character, for the ASCII letters. */
  function LowerChar(c: char): char
  {
    if 'A' <= c <= 'Z' then (c as int + 32) as char else c
  }

  /** `String.prototype.toLowerCase`, restricted to ASCII case mapping. */
  function ToLower(s: string): (r: string)
    ensures |r| == |s|
    ensures forall i :: 0 <= i < |s| ==> r[i] == LowerChar(s[i])
  {
    if s == [] then [] else [LowerChar(s[0])] + ToLower(s[1..])
  }

  /** Lowering twice is lowering once. */
  lemma ToLowerIdempotent(s: string)
    ensures ToLower(ToLower(s)) == ToLower(s)
  {
    assert forall i :: 0 <= i < |s| ==> LowerChar(LowerChar(s[i])) == LowerChar(s[i]);
  }

  /** `sub` occurs in `s` starting at index `i`. */
  predicate OccursAt(s: string, sub: string, i: int)
  {
    0 <= i && i + |sub| <= |s| && s[i..i + |sub|] == sub
  }

  /** An occurrence in the tail is an occurrence one place later in the whole text. */
  lemma OccursInTail(s: string, sub: string, i: int)
    requires |s| > 0 && 0 <= i
    ensures OccursAt(s[1..], sub, i) <==> OccursAt(s, sub, i + 1)
  {
    if 0 <= i && i + |sub| <= |s| - 1 {
      assert s[1..][i..i + |sub|] == s[i + 1..i + 1 + |sub|];
    }
  }

  /** When `sub` is not at the front, it occurs in `s` iff it occurs in the tail. */
  lemma OccursPastFront(s: string, sub: string)
    requires |s| > 0 && !OccursAt(s, sub, 0)
    ensures (exists i :: OccursAt(s, sub, i)) <==> (exists i :: OccursAt(s[1..], sub, i))
  {
    if exists i :: OccursAt(s, sub, i) {
      var i :| OccursAt(s, sub, i);
      OccursInTail(s, sub, i - 1);
    }
    if exists i :: OccursAt(s[1..], sub, i) {
      var i :| OccursAt(s[1..], sub, i);
      OccursInTail(s, sub, i);
    }
  }

  /** `s.includes(sub)`, written as the search the runtime performs from the left. */
  function Includes(s: string, sub: string): (b: bool)
    ensures b <==> exists i :: OccursAt(s, sub, i)
    decreases |s|
  {
    if |sub| <= |s| && s[..|sub|] == sub then
      assert OccursAt(s, sub, 0);
      true
    else if s == [] then
      false
    else
      OccursPastFront(s, sub);
      Includes(s[1..], sub)
  }

  /** The empty string is included in every string. */
  lemma IncludesEmpty(s: string)
    ensures Includes(s, "")
  {
    assert OccursAt(s, "", 0);
  }

  /** No occurrence before `r` in the tail and none at the front: none before `r + 1` in the whole text. */
  lemma NoEarlierOccurrence(s: string, sub: string, r: int)
    requires |s| > 0 && !OccursAt(s, sub, 0)
    requires forall j :: 0 <= j < r ==> !OccursAt(s[1..], sub, j)
    ensures forall j :: 0 <= j < r + 1 ==> !OccursAt(s, sub, j)
  {
    forall j | 0 <= j < r + 1
      ensures !OccursAt(s, sub, j)
    {
      if j > 0 {
        OccursInTail(s, sub, j - 1);
      }
    }
  }

  /** Index of the first occurrence of `sep` in `s`, or -1 (`s.indexOf(sep)`). */
  function IndexOf(s: string, sep: string): (r: int)
    requires |sep| > 0
    ensures r == -1 || OccursAt(s, sep, r)
    ensures r == -1 <==> !Includes(s, sep)
    ensures forall j :: 0 <= j < r ==> !OccursAt(s, sep, j)
    decreases |s|
  {
    if |sep| <= |s| && s[..|sep|] == sep then 0
    else if s == [] then -1
    else
      var r := IndexOf(s[1..], sep);
      assert !OccursAt(s, sep, 0);
      OccursPastFront(s, sep);
      if r == -1 then -1
      else
        OccursInTail(s, sep, r);
        NoEarlierOccurrence(s, sep, r);
        r + 1
  }

  /** `parts.join(sep)`. */
  function Join(parts: seq<string>, sep: string): string
  {
    if parts == [] then ""
    else if |parts| == 1 then parts[0]
    else parts[0] + sep + Join(parts[1..], sep)
  }

  /** Every part occurs in the joined text. */
  lemma {:induction false} JoinIncludesPart(parts: seq<string>, sep: string, i: nat)
    requires i < |parts|
    ensures Includes(Join(parts, sep), parts[i])
  {
    var whole := Join(parts, sep);
    if |parts| == 1 || i == 0 {
      assert OccursAt(whole, parts[0], 0);
    } else {
      var rest := Join(parts[1..], sep);
      JoinIncludesPart(parts[1..], sep, i - 1);
      var j :| OccursAt(rest, parts[i], j);
      var offset := |parts[0] + sep|;
      assert whole == (parts[0] + sep) + rest;
      assert whole[offset + j..offset + j + |parts[i]|] == rest[j..j + |parts[i]|];
      assert OccursAt(whole, parts[i], offset + j);
    }
  }

  /** The joined text starts with the first part. */
  lemma JoinStartsWithFirst(parts: seq<string>, sep: string)
    requires |parts| >= 1
    ensures |parts[0]| <= |Join(parts, sep)| && Join(parts, sep)[..|parts[0]|] == parts[0]
  {
    if |parts| > 1 {
      assert Join(parts, sep) == parts[0] + (sep + Join(parts[1..], sep));
    }
  }

  /** Neighbouring parts occur in the joined text in list order, with the separator between them. */
  lemma {:induction false} JoinIncludesAdjacent(parts: seq<string>, sep: string, i: nat)
    requires i + 1 < |parts|
    ensures Includes(Join(parts, sep), parts[i] + sep + parts[i + 1])
  {
    var whole := Join(parts, sep);
    var rest := Join(parts[1..], sep);
    var offset := |parts[0] + sep|;
    assert whole == (parts[0] + sep) + rest;
    if i == 0 {
      JoinStartsWithFirst(parts[1..], sep);
      var pair := parts[0] + sep + parts[1];
      assert whole[..|pair|] == (parts[0] + sep) + rest[..|parts[1]|];
      assert OccursAt(whole, pair, 0);
    } else {
      var pair := parts[i] + sep + parts[i + 1];
      JoinIncludesAdjacent(parts[1..], sep, i - 1);
      var j :| OccursAt(rest, pair, j);
      assert whole[offset + j..offset + j + |pair|] == rest[j..j + |pair|];
      assert OccursAt(whole, pair, offset + j);
    }
  }

  /** `s.split(sep)` for a non-empty separator: the pieces between successive occurrences. */
  function Split(s: string, sep: string): (parts: seq<string>)
    requires |sep| > 0
    ensures |parts| >= 1
    ensures |parts| >= 2 <==> Includes(s, sep)
    decreases |s|
  {
    var i := IndexOf(s, sep);
    if i == -1 then [s] else [s[..i]] + Split(s[i + |sep|..], sep)
  }

  /** Joining a part in front of at least one more part puts a separator between them. */
  lemma JoinCons(first: string, tail: seq<string>, sep: string)
    requires |tail| >= 1
    ensures Join([first] + tail, sep) == first + sep + Join(tail, sep)
  {
    var parts := [first] + tail;
    assert parts[0] == first && parts[1..] == tail;
  }

  /** Around an occurrence of `sep`, the text is what comes before, `sep`, and what comes after. */
  lemma Around(s: string, sep: string, i: int)
    requires OccursAt(s, sep, i)
    ensures s == s[..i] + sep + s[i + |sep|..]
  {
    assert s == s[..i] + s[i..i + |sep|] + s[i + |sep|..];
  }

  /** Splitting at the first separator: the piece before it, then the split of what follows. */
  lemma SplitAtFirst(s: string, sep: string)
    requires |sep| > 0 && IndexOf(s, sep) != -1
    ensures var i := IndexOf(s, sep);
      && Split(s, sep) == [s[..i]] + Split(s[i + |sep|..], sep)
      && s == s[..i] + sep + s[i + |sep|..]
  {
    Around(s, sep, IndexOf(s, sep));
  }

  /** Splitting and joining again with the same separator gives back the original text. */
  lemma {:induction false} JoinSplit(s: string, sep: string)
    requires |sep| > 0
    ensures Join(Split(s, sep), sep) == s
    decreases |s|
  {
    var i := IndexOf(s, sep);
    if i == -1 {
      assert Split(s, sep) == [s];
    } else {
      var rest := s[i + |sep|..];
      SplitAtFirst(s, sep);
      JoinSplit(rest, sep);
      JoinCons(s[..i], Split(rest, sep), sep);
    }
  }

  /** After the first separator, the remaining pieces joined back are the rest of the text. */
  lemma SplitTail(s: string, sep: string)
    requires |sep| > 0 && Includes(s, sep)
    ensures Join(Split(s, sep)[1..], sep) == s[IndexOf(s, sep) + |sep|..]
  {
    var i := IndexOf(s, sep);
    var rest := s[i + |sep|..];
    SplitAtFirst(s, sep);
    assert Split(s, sep)[1..] == Split(rest, sep);
    JoinSplit(rest, sep);
  }
}
