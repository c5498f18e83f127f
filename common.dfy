/** Values shared by every part of the model: Python's exceptions as an
    error datatype, and the small pieces of Python string and list
    behaviour the compiler relies on (join, split, strip, upper/lower,
    repr, str of an int, and the order-preserving de-duplication). */
module Common {

  /** The exceptions the modelled code raises, with their messages. */
  datatype Error =
    | ValueError(message: string)
    | IOError(message: string)
    | RuntimeError(message: string)
    | KeyError(message: string)
    | IndexError(message: string)
    | TypeError(message: string)

  datatype Option<T> = None | Some(value: T)

  datatype Result<T> = Ok(value: T) | Err(error: Error)

  /** The result of an operation that returns nothing or raises. */
  datatype Outcome = Pass | Fail(error: Error)

  // ---------------------------------------------------------------------
  // Lists

  ghost predicate NoDup<T>(s: seq<T>) {
    forall i, j :: 0 <= i < j < |s| ==> s[i] != s[j]
  }

  /** `list.remove(x)` takes away exactly one `x` when there is one. */
  lemma RemoveFirstCount<T>(s: seq<T>, x: T)
    requires x in s
    ensures multiset(RemoveFirst(s, x)) + multiset{x} == multiset(s)
  {
    var i := IndexOf(s, x);
    assert s == s[..i] + [x] + s[i + 1..];
  }

  /** The same as a multiset difference, which also covers a list without `x`. */
  lemma RemoveFirstLess<T>(s: seq<T>, x: T)
    ensures multiset(RemoveFirst(s, x)) == multiset(s) - multiset{x}
  {
    if x in s {
      RemoveFirstCount(s, x);
      var r := multiset(RemoveFirst(s, x));
      assert forall y :: (multiset(s) - multiset{x})[y] == r[y];
    }
  }

  /** A list without repeats holds each value at most once. */
  lemma {:induction false} NoDupCount<T>(s: seq<T>, x: T)
    requires NoDup(s)
    ensures multiset(s)[x] <= 1
  {
    if |s| > 0 {
      var init := s[..|s| - 1];
      assert s == init + [s[|s| - 1]];
      NoDupCount(init, x);
      if s[|s| - 1] == x {
        assert x !in init;
      }
    }
  }

  /** `a` is `b` with some elements left out, order kept. */
  ghost predicate IsSubseq<T>(a: seq<T>, b: seq<T>)
    decreases |b|
  {
    if |a| == 0 then true
    else if |b| == 0 then false
    else if a[|a| - 1] == b[|b| - 1] then IsSubseq(a[..|a| - 1], b[..|b| - 1])
    else IsSubseq(a, b[..|b| - 1])
  }

  lemma {:induction false} IsSubseqMembers<T>(a: seq<T>, b: seq<T>)
    requires IsSubseq(a, b)
    ensures forall x :: x in a ==> x in b
    decreases |b|
  {
    if |a| > 0 && |b| > 0 {
      if a[|a| - 1] == b[|b| - 1] {
        IsSubseqMembers(a[..|a| - 1], b[..|b| - 1]);
        assert a == a[..|a| - 1] + [a[|a| - 1]];
        assert b == b[..|b| - 1] + [b[|b| - 1]];
      } else {
        IsSubseqMembers(a, b[..|b| - 1]);
        assert b == b[..|b| - 1] + [b[|b| - 1]];
      }
    }
  }

  lemma {:induction false} IsSubseqAppend<T>(a: seq<T>, b: seq<T>, x: T)
    requires IsSubseq(a, b)
    ensures IsSubseq(a, b + [x]) && IsSubseq(a + [x], b + [x])
  {
    assert (b + [x])[..|b|] == b;
    assert (a + [x])[..|a|] == a;
    if |a| > 0 && a[|a| - 1] == x {
      IsSubseqDropLast(a, b);
    }
  }

  lemma {:induction false} IsSubseqDropLast<T>(a: seq<T>, b: seq<T>)
    requires |a| > 0 && IsSubseq(a, b)
    ensures IsSubseq(a[..|a| - 1], b)
    decreases |b|, 0
  {
    assert b[..|b| - 1] + [b[|b| - 1]] == b;
    if a[|a| - 1] == b[|b| - 1] {
      IsSubseqOfPrefixExtends(a[..|a| - 1], b[..|b| - 1], b[|b| - 1]);
    } else {
      IsSubseqDropLast(a, b[..|b| - 1]);
      IsSubseqOfPrefixExtends(a[..|a| - 1], b[..|b| - 1], b[|b| - 1]);
    }
  }

  lemma {:induction false} IsSubseqOfPrefixExtends<T>(a: seq<T>, b: seq<T>, x: T)
    requires IsSubseq(a, b)
    ensures IsSubseq(a, b + [x])
    decreases |b|, 1
  {
    assert (b + [x])[..|b|] == b;
    if |a| > 0 && a[|a| - 1] == x {
      IsSubseqDropLast(a, b);
    }
  }

  /** The order-preserving de-duplication `uniq_list`: the first
      occurrence of every element is kept, later ones are dropped. */
  function UniqList<T(==,!new)>(s: seq<T>): (r: seq<T>)
    ensures forall x :: x in r <==> x in s
    ensures NoDup(r)
    ensures |r| <= |s|
  {
    if |s| == 0 then []
    else
      var r := UniqList(s[..|s| - 1]);
      assert forall x :: x in s <==> x in s[..|s| - 1] || x == s[|s| - 1] by {
        assert s == s[..|s| - 1] + [s[|s| - 1]];
      }
      if s[|s| - 1] in r then r else r + [s[|s| - 1]]
  }

  /** The distinct elements keep the order of their first occurrences. */
  lemma {:induction false} UniqListOrder<T(!new)>(s: seq<T>)
    ensures forall i, j :: 0 <= i < j < |UniqList(s)| ==> IndexOf(s, UniqList(s)[i]) < IndexOf(s, UniqList(s)[j])
  {
    if |s| > 0 {
      var init, x := s[..|s| - 1], s[|s| - 1];
      var r := UniqList(init);
      UniqListOrder(init);
      assert s == init + [x];
      forall y | y in init
        ensures IndexOf(s, y) == IndexOf(init, y) < |init|
      {
        IndexOfSnoc(init, x, y);
      }
      if x !in r {
        IndexOfSnoc(init, x, x);
        assert UniqList(s) == r + [x];
      }
    }
  }

  /** Appending to a list does not move the first occurrence of an element
      already in it; a new element is found at the end. */
  lemma {:induction false} IndexOfSnoc<T>(init: seq<T>, x: T, y: T)
    requires y in init + [x]
    ensures y in init ==> IndexOf(init + [x], y) == IndexOf(init, y)
    ensures y !in init ==> IndexOf(init + [x], y) == |init|
    decreases |init|
  {
    if |init| > 0 && init[0] != y {
      assert (init + [x])[1..] == init[1..] + [x];
      IndexOfSnoc(init[1..], x, y);
    }
  }

  /** The de-duplicated list keeps the input's order. */
  lemma {:induction false} UniqListIsSubseq<T(!new)>(s: seq<T>)
    ensures IsSubseq(UniqList(s), s)
  {
    if |s| > 0 {
      var init, x := s[..|s| - 1], s[|s| - 1];
      assert s == init + [x];
      UniqListIsSubseq(init);
      var u := UniqList(init);
      if x in u {
        assert UniqList(s) == u;
        IsSubseqOfPrefixExtends(u, init, x);
      } else {
        assert UniqList(s) == u + [x];
        IsSubseqAppend(u, init, x);
      }
    }
  }

  /** A list without repetitions is its own de-duplication. */
  lemma {:induction false} UniqListOfDistinct<T(!new)>(s: seq<T>)
    requires NoDup(s)
    ensures UniqList(s) == s
  {
    if |s| > 0 {
      UniqListOfDistinct(s[..|s| - 1]);
      assert s[|s| - 1] !in s[..|s| - 1];
    }
  }

  /** Adding one element to the end: how `uniq_list` grows. */
  lemma UniqListSnoc<T(!new)>(s: seq<T>, x: T)
    ensures UniqList(s + [x]) == if x in UniqList(s) then UniqList(s) else UniqList(s) + [x]
  {
    assert (s + [x])[..|s|] == s;
  }

  /** Every list is a sublist of itself. */
  lemma {:induction false} IsSubseqRefl<T>(b: seq<T>)
    ensures IsSubseq(b, b)
    decreases |b|
  {
    if |b| > 0 {
      IsSubseqRefl(b[..|b| - 1]);
    }
  }

  /** Dropping one element keeps a sublist. */
  lemma {:induction false} IsSubseqRemoveAt<T>(b: seq<T>, i: nat)
    requires i < |b|
    ensures IsSubseq(b[..i] + b[i + 1..], b)
    decreases |b|
  {
    var a := b[..i] + b[i + 1..];
    var init := b[..|b| - 1];
    assert init + [b[|b| - 1]] == b;
    if i == |b| - 1 {
      assert a == init;
      IsSubseqRefl(init);
      IsSubseqOfPrefixExtends(init, init, b[|b| - 1]);
    } else {
      assert a[|a| - 1] == b[|b| - 1];
      assert a[..|a| - 1] == init[..i] + init[i + 1..];
      IsSubseqRemoveAt(init, i);
    }
  }

  /** A sublist of a sublist is a sublist. */
  lemma {:induction false} IsSubseqTrans<T>(a: seq<T>, b: seq<T>, c: seq<T>)
    requires IsSubseq(a, b) && IsSubseq(b, c)
    ensures IsSubseq(a, c)
    decreases |c|
  {
    if |a| > 0 {
      var c' := c[..|c| - 1];
      assert c' + [c[|c| - 1]] == c;
      if b[|b| - 1] == c[|c| - 1] {
        if a[|a| - 1] == b[|b| - 1] {
          IsSubseqTrans(a[..|a| - 1], b[..|b| - 1], c');
        } else {
          IsSubseqTrans(a, b[..|b| - 1], c');
          if a[|a| - 1] == c[|c| - 1] {
            IsSubseqDropLast(a, c');
          }
        }
      } else {
        IsSubseqTrans(a, b, c');
        IsSubseqOfPrefixExtends(a, c', c[|c| - 1]);
      }
    }
  }

  /** `lst.index(x)`: the position of the first occurrence of `x`. */
  function IndexOf<T(==)>(s: seq<T>, x: T): (i: nat)
    requires x in s
    ensures i < |s| && s[i] == x && x !in s[..i]
  {
    if s[0] == x then 0
    else
      var j := IndexOf(s[1..], x);
      assert s[..j + 1] == [s[0]] + s[1..][..j];
      j + 1
  }

  /** `lst.remove(x)`: drops the first occurrence of `x`, if any. */
  function RemoveFirst<T(==)>(s: seq<T>, x: T): (r: seq<T>)
    ensures x !in s ==> r == s
    ensures x in s ==> r == s[..IndexOf(s, x)] + s[IndexOf(s, x) + 1..]
  {
    if |s| == 0 then []
    else if s[0] == x then s[1..]
    else
      var rest := RemoveFirst(s[1..], x);
      assert x in s ==> x in s[1..] && IndexOf(s, x) == IndexOf(s[1..], x) + 1;
      assert x in s ==> s[..IndexOf(s, x)] == [s[0]] + s[1..][..IndexOf(s[1..], x)];
      assert x in s ==> s[IndexOf(s, x) + 1..] == s[1..][IndexOf(s[1..], x) + 1..];
      [s[0]] + rest
  }

  /** Removing `x` keeps every other element and the order. */
  lemma RemoveFirstKeeps<T>(s: seq<T>, x: T)
    ensures forall y :: y != x ==> (y in RemoveFirst(s, x) <==> y in s)
    ensures forall y :: y in RemoveFirst(s, x) ==> y in s
    ensures IsSubseq(RemoveFirst(s, x), s)
  {
    if x in s {
      var i := IndexOf(s, x);
      assert s == s[..i] + [x] + s[i + 1..];
      IsSubseqRemoveAt(s, i);
    } else {
      IsSubseqRefl(s);
    }
  }

  // ---------------------------------------------------------------------
  // Strings

  /** Python's `sep.join(parts)`. */
  function Join(sep: string, parts: seq<string>): string
  {
    if |parts| == 0 then ""
    else if |parts| == 1 then parts[0]
    else Join(sep, parts[..|parts| - 1]) + sep + parts[|parts| - 1]
  }

  lemma JoinSnoc(sep: string, parts: seq<string>, p: string)
    requires |parts| > 0
    ensures Join(sep, parts + [p]) == Join(sep, parts) + sep + p
  {
    assert (parts + [p])[..|parts|] == parts;
  }

  lemma {:induction false} JoinCons(sep: string, p: string, parts: seq<string>)
    requires |parts| > 0
    ensures Join(sep, [p] + parts) == p + sep + Join(sep, parts)
    decreases |parts|
  {
    var last := parts[|parts| - 1];
    if |parts| == 1 {
      assert [p] + parts == [p, last];
      assert [p, last][..1] == [p];
    } else {
      var init := parts[..|parts| - 1];
      assert [p] + parts == ([p] + init) + [last];
      assert parts == init + [last];
      JoinCons(sep, p, init);
      JoinSnoc(sep, [p] + init, last);
      JoinSnoc(sep, init, last);
    }
  }

  /** Python's `s.split(c)` with a one-character separator: never empty,
      and no piece holds the separator. */
  function Split(s: string, c: char): (r: seq<string>)
    ensures |r| >= 1
    ensures forall i :: 0 <= i < |r| ==> c !in r[i]
  {
    if |s| == 0 then [""]
    else
      var prev := Split(s[..|s| - 1], c);
      if s[|s| - 1] == c then prev + [""]
      else prev[..|prev| - 1] + [prev[|prev| - 1] + [s[|s| - 1]]]
  }

  /** Extending the last part extends the joined string. */
  lemma JoinExtendLast(sep: string, parts: seq<string>, x: char)
    requires |parts| > 0
    ensures Join(sep, parts[..|parts| - 1] + [parts[|parts| - 1] + [x]]) == Join(sep, parts) + [x]
  {
    var init := parts[..|parts| - 1];
    var p := parts[|parts| - 1];
    if |init| > 0 {
      JoinSnoc(sep, init, p + [x]);
      JoinSnoc(sep, init, p);
      assert init + [p] == parts;
    }
  }

  /** Joining the pieces of `s.split(c)` back with `c` gives `s` again. */
  lemma {:induction false} JoinSplit(s: string, c: char)
    ensures Join([c], Split(s, c)) == s
    decreases |s|
  {
    if |s| > 0 {
      var s', x := s[..|s| - 1], s[|s| - 1];
      assert s' + [x] == s;
      JoinSplit(s', c);
      JoinSplitSnoc(s', x, c);
    }
  }

  /** One more character keeps `Join` and `Split` inverse. */
  lemma JoinSplitSnoc(s: string, x: char, c: char)
    requires Join([c], Split(s, c)) == s
    ensures Join([c], Split(s + [x], c)) == s + [x]
  {
    var t := s + [x];
    assert t[..|t| - 1] == s && t[|t| - 1] == x;
    var prev := Split(s, c);
    if x == c {
      assert Split(t, c) == prev + [""];
      JoinSnoc([c], prev, "");
    } else {
      assert Split(t, c) == prev[..|prev| - 1] + [prev[|prev| - 1] + [x]];
      JoinExtendLast([c], prev, x);
    }
  }

  /** The characters Python's `str.isspace()`, and so `str.split()` and
      `str.strip()`, treat as white space. */
  predicate IsSpace(c: char) {
    (9 <= c as int <= 13) || (28 <= c as int <= 32) || c as int == 0x85 || c as int == 0xA0 ||
    c as int == 0x1680 || (0x2000 <= c as int <= 0x200A) || c as int == 0x2028 || c as int == 0x2029 ||
    c as int == 0x202F || c as int == 0x205F || c as int == 0x3000
  }

  /** Python's `s.split()` (no argument): the maximal runs of
      non-space characters, in order. */
  function Words(s: string): (r: seq<string>)
    ensures forall i :: 0 <= i < |r| ==> |r[i]| > 0
    ensures forall i, j :: 0 <= i < |r| && 0 <= j < |r[i]| ==> !IsSpace(r[i][j])
    ensures r == [] <==> forall i :: 0 <= i < |s| ==> IsSpace(s[i])
    ensures Join("", r) == NonSpace(s)
  {
    WordsFromCover(s, "");
    AllSpaceEach(s);
    WordsFrom(s, "")
  }

  /** Splits `s` into words, `pending` being the word read so far. */
  function WordsFrom(s: string, pending: string): (r: seq<string>)
    ensures forall i :: 0 <= i < |r| ==> |r[i]| > 0
    ensures (forall j :: 0 <= j < |pending| ==> !IsSpace(pending[j])) ==>
      forall i, j :: 0 <= i < |r| && 0 <= j < |r[i]| ==> !IsSpace(r[i][j])
    decreases |s|
  {
    if |s| == 0 then (if pending == "" then [] else [pending])
    else if IsSpace(s[0]) then (if pending == "" then [] else [pending]) + WordsFrom(s[1..], "")
    else WordsFrom(s[1..], pending + [s[0]])
  }

  /** No words are left exactly when nothing but white space is, and the
      words hold exactly the characters that are not white space. */
  lemma {:induction false} WordsFromCover(s: string, pending: string)
    ensures WordsFrom(s, pending) == [] <==> pending == "" && AllSpace(s)
    ensures Join("", WordsFrom(s, pending)) == pending + NonSpace(s)
  {
    WordsFromEmpty(s, pending);
    WordsFromJoin(s, pending);
  }

  lemma {:induction false} WordsFromEmpty(s: string, pending: string)
    ensures WordsFrom(s, pending) == [] <==> pending == "" && AllSpace(s)
    decreases |s|
  {
    if |s| > 0 {
      if IsSpace(s[0]) {
        WordsFromEmpty(s[1..], "");
      } else {
        WordsFromEmpty(s[1..], pending + [s[0]]);
      }
    }
  }

  lemma {:induction false} WordsFromJoin(s: string, pending: string)
    ensures Join("", WordsFrom(s, pending)) == pending + NonSpace(s)
    decreases |s|
  {
    if |s| == 0 {
    } else if IsSpace(s[0]) {
      WordsFromJoin(s[1..], "");
      JoinAtSpace(s, pending);
    } else {
      WordsFromJoin(s[1..], pending + [s[0]]);
      JoinAtChar(s, pending);
    }
  }

  /** Any other character extends the pending word. */
  lemma {:induction false} JoinAtChar(s: string, pending: string)
    requires |s| > 0 && !IsSpace(s[0])
    requires Join("", WordsFrom(s[1..], pending + [s[0]])) == pending + [s[0]] + NonSpace(s[1..])
    ensures Join("", WordsFrom(s, pending)) == pending + NonSpace(s)
  {
    assert WordsFrom(s, pending) == WordsFrom(s[1..], pending + [s[0]]);
    assert NonSpace(s) == [s[0]] + NonSpace(s[1..]);
    assert pending + [s[0]] + NonSpace(s[1..]) == pending + ([s[0]] + NonSpace(s[1..]));
  }

  /** A white-space character closes the pending word. */
  lemma {:induction false} JoinAtSpace(s: string, pending: string)
    requires |s| > 0 && IsSpace(s[0])
    requires Join("", WordsFrom(s[1..], "")) == NonSpace(s[1..])
    ensures Join("", WordsFrom(s, pending)) == pending + NonSpace(s)
  {
    var rest := WordsFrom(s[1..], "");
    assert NonSpace(s) == NonSpace(s[1..]);
    if pending == "" {
      assert WordsFrom(s, pending) == rest;
    } else if rest == [] {
      assert WordsFrom(s, pending) == [pending];
    } else {
      assert WordsFrom(s, pending) == [pending] + rest;
      JoinCons("", pending, rest);
    }
  }

  /** `s` is all white space. */
  predicate AllSpace(s: string)
  {
    |s| == 0 || (IsSpace(s[0]) && AllSpace(s[1..]))
  }

  lemma {:induction false} AllSpaceEach(s: string)
    ensures AllSpace(s) <==> forall i :: 0 <= i < |s| ==> IsSpace(s[i])
  {
    if |s| > 0 {
      AllSpaceEach(s[1..]);
      assert forall i :: 1 <= i < |s| ==> s[i] == s[1..][i - 1];
    }
  }

  /** The characters of `s` that are not white space, in order. */
  function NonSpace(s: string): (r: string)
    ensures |r| <= |s|
  {
    if |s| == 0 then "" else (if IsSpace(s[0]) then "" else [s[0]]) + NonSpace(s[1..])
  }

  /** Python's `s.strip(c)` for one character `c`. */
  function StripChar(s: string, c: char): (r: string)
    ensures |r| > 0 ==> r[0] != c && r[|r| - 1] != c
  {
    StripRightChar(StripLeftChar(s, c), c)
  }

  function StripLeftChar(s: string, c: char): (r: string)
    ensures |r| > 0 ==> r[0] != c
    ensures |r| <= |s| && r == s[|s| - |r|..]
  {
    if |s| > 0 && s[0] == c then StripLeftChar(s[1..], c) else s
  }

  function StripRightChar(s: string, c: char): (r: string)
    ensures |r| > 0 ==> r[|r| - 1] != c
    ensures |r| <= |s| && r == s[..|r|]
    ensures |s| > 0 && s[0] != c ==> |r| > 0 && r[0] == s[0]
  {
    if |s| > 0 && s[|s| - 1] == c then StripRightChar(s[..|s| - 1], c) else s
  }

  /** A string without `c` at either end is unchanged by `strip(c)`. */
  lemma StripCharNoop(s: string, c: char)
    requires |s| > 0 ==> s[0] != c && s[|s| - 1] != c
    ensures StripChar(s, c) == s
  {
  }

  /** Python's `s.strip()`: white space removed at both ends. */
  function Strip(s: string): (r: string)
    ensures |r| > 0 ==> !IsSpace(r[0]) && !IsSpace(r[|r| - 1])
    ensures |r| <= |s|
  {
    StripRight(StripLeft(s))
  }

  /** `strip()` keeps a slice of the string and drops only white space:
      before the slice, `k` characters, and everything after it. */
  lemma {:induction false} StripSlice(s: string)
    ensures var r := Strip(s); var k := |s| - |StripLeft(s)|;
      k + |r| <= |s| && r == s[k..k + |r|] &&
      (forall i :: 0 <= i < k ==> IsSpace(s[i])) && (forall i :: k + |r| <= i < |s| ==> IsSpace(s[i]))
  {
    SliceOfSuffix(s, StripLeft(s), Strip(s), |s| - |StripLeft(s)|);
  }

  /** A prefix `r` of the suffix `l == s[k..]` is a slice of `s`, and what
      follows it in `l` follows it in `s`. */
  lemma SliceOfSuffix(s: string, l: string, r: string, k: nat)
    requires k <= |s| && l == s[k..] && |r| <= |l| && r == l[..|r|]
    requires forall j :: |r| <= j < |l| ==> IsSpace(l[j])
    ensures k + |r| <= |s| && r == s[k..k + |r|]
    ensures forall i :: k + |r| <= i < |s| ==> IsSpace(s[i])
  {
    forall i | k + |r| <= i < |s|
      ensures IsSpace(s[i])
    {
      assert s[i] == l[i - k];
    }
  }

  function StripLeft(s: string): (r: string)
    ensures |r| > 0 ==> !IsSpace(r[0])
    ensures |r| <= |s| && r == s[|s| - |r|..]
    ensures forall i :: 0 <= i < |s| - |r| ==> IsSpace(s[i])
  {
    if |s| > 0 && IsSpace(s[0]) then StripLeft(s[1..]) else s
  }

  function StripRight(s: string): (r: string)
    ensures |r| > 0 ==> !IsSpace(r[|r| - 1])
    ensures |r| <= |s| && r == s[..|r|]
    ensures forall i :: |r| <= i < |s| ==> IsSpace(s[i])
    ensures |s| > 0 && !IsSpace(s[0]) ==> |r| > 0 && r[0] == s[0]
  {
    if |s| > 0 && IsSpace(s[|s| - 1]) then StripRight(s[..|s| - 1]) else s
  }

  predicate StartsWith(s: string, prefix: string) {
    |prefix| <= |s| && s[..|prefix|] == prefix
  }

  predicate EndsWith(s: string, suffix: string) {
    |suffix| <= |s| && s[|s| - |suffix|..] == suffix
  }

  function UpperChar(c: char): char {
    if 'a' <= c <= 'z' then (c as int - 32) as char else c
  }

  function LowerChar(c: char): char {
    if 'A' <= c <= 'Z' then (c as int + 32) as char else c
  }

  /** Python's `s.upper()`, on ASCII letters. */
  function Upper(s: string): (r: string)
    ensures |r| == |s|
    ensures forall i :: 0 <= i < |s| ==> r[i] == UpperChar(s[i])
  {
    seq(|s|, i requires 0 <= i < |s| => UpperChar(s[i]))
  }

  /** Python's `s.lower()`, on ASCII letters. */
  function Lower(s: string): (r: string)
    ensures |r| == |s|
    ensures forall i :: 0 <= i < |s| ==> r[i] == LowerChar(s[i])
  {
    seq(|s|, i requires 0 <= i < |s| => LowerChar(s[i]))
  }

  /** Upper-casing ignores the case the string was written in. */
  lemma UpperIgnoresCase(s: string)
    ensures Upper(Lower(s)) == Upper(s) && Upper(Upper(s)) == Upper(s)
  {
  }

  lemma LowerIdempotent(s: string)
    ensures Lower(Lower(s)) == Lower(s)
  {
  }

  /** Python's `repr` of a string: the quote is `'` unless the string holds
      a `'` and no `"`; backslash, the chosen quote, tab, newline, carriage
      return and the other characters of `Unprintable` are escaped. */
  function Repr(s: string): (r: string)
    ensures |r| >= 2 + |s|
    ensures r[0] == r[|r| - 1] && (r[0] == '\'' || r[0] == '"')
  {
    var q := if '\'' in s && '"' !in s then '"' else '\'';
    [q] + Escape(s, q) + [q]
  }

  function Escape(s: string, q: char): (r: string)
    ensures |r| >= |s|
  {
    if |s| == 0 then "" else EscapeChar(s[0], q) + Escape(s[1..], q)
  }

  function HexDigit(d: int): char
    requires 0 <= d < 16
  {
    if d < 10 then ('0' as int + d) as char else ('a' as int + d - 10) as char
  }

  function EscapeChar(c: char, q: char): (r: string)
    ensures |r| >= 1
  {
    if c == '\\' then "\\\\"
    else if c == q then ['\\', q]
    else if c == '\t' then "\\t"
    else if c == '\n' then "\\n"
    else if c == '\r' then "\\r"
    else if Unprintable(c) then
      if c as int < 256 then ['\\', 'x', HexDigit(c as int / 16), HexDigit(c as int % 16)]
      else ['\\', 'u', HexDigit(c as int / 4096), HexDigit(c as int / 256 % 16), HexDigit(c as int / 16 % 16),
            HexDigit(c as int % 16)]
    else [c]
  }

  /** The characters `str.isprintable()` rejects among the Latin-1 ones
      (the control characters, the no-break space and the soft hyphen),
      and the white space other than the blank. */
  predicate Unprintable(c: char) {
    c as int < 32 || (127 <= c as int <= 160) || c as int == 0xAD || (IsSpace(c) && c != ' ')
  }

  /** A character `repr` writes as itself. */
  predicate PlainChar(c: char) {
    32 <= c as int < 127 && c != '\\' && c != '\''
  }

  /** `repr` of a string of plain characters just puts it in single quotes. */
  lemma {:induction false} ReprOfPlain(s: string)
    requires forall i :: 0 <= i < |s| ==> PlainChar(s[i])
    ensures Repr(s) == "'" + s + "'"
  {
    EscapePlain(s, '\'');
  }

  lemma {:induction false} EscapePlain(s: string, q: char)
    requires forall i :: 0 <= i < |s| ==> PlainChar(s[i]) && s[i] != q
    ensures Escape(s, q) == s
  {
    if |s| > 0 {
      EscapePlain(s[1..], q);
      assert s == [s[0]] + s[1..];
    }
  }

  /** Python's `str` of an int: decimal digits with a leading `-` for a
      negative number. */
  function IntToString(i: int): (r: string)
    ensures |r| > 0
  {
    if i < 0 then "-" + NatToString(-i) else NatToString(i)
  }

  function DigitChar(d: int): char
    requires 0 <= d < 10
  {
    ('0' as int + d) as char
  }

  function NatToString(n: nat): (r: string)
    ensures |r| > 0 && forall i :: 0 <= i < |r| ==> IsDigit(r[i])
    decreases n
  {
    if n < 10 then [DigitChar(n)] else NatToString(n / 10) + [DigitChar(n % 10)]
  }

  predicate IsDigit(c: char) {
    '0' <= c <= '9'
  }

  predicate AllDigits(s: string) {
    forall i :: 0 <= i < |s| ==> IsDigit(s[i])
  }

  /** The value of a non-empty string of decimal digits. */
  function DigitsValue(s: string): nat
    requires forall i :: 0 <= i < |s| ==> IsDigit(s[i])
  {
    if |s| == 0 then 0
    else
      assert IsDigit(s[|s| - 1]);
      DigitsValue(s[..|s| - 1]) * 10 + (s[|s| - 1] as int - '0' as int)
  }

  /** Python's `int(text)` on a string: optional white space round an
      optional sign and at least one decimal digit; anything else is the
      `ValueError` Python raises, here `None`. */
  function ParseInt(text: string): (r: Option<int>)
  {
    var t := Strip(text);
    var body := if |t| > 0 && (t[0] == '-' || t[0] == '+') then t[1..] else t;
    if |body| == 0 || !AllDigits(body) then None
    else if t[0] == '-' then Some(0 - DigitsValue(body) as int)
    else Some(DigitsValue(body))
  }

  lemma {:induction false} DigitsOfNat(n: nat)
    ensures DigitsValue(NatToString(n)) == n
    decreases n
  {
    if n >= 10 {
      DigitsOfNat(n / 10);
      var s := NatToString(n);
      assert s[..|s| - 1] == NatToString(n / 10);
    }
  }

  /** A string with no white space at either end is unchanged by `strip()`. */
  lemma StripNoop(s: string)
    requires |s| > 0 ==> !IsSpace(s[0]) && !IsSpace(s[|s| - 1])
    ensures Strip(s) == s
  {
  }

  lemma ParseIntOfDigits(digits: string)
    requires |digits| > 0 && AllDigits(digits)
    ensures ParseInt(digits) == Some(DigitsValue(digits) as int)
  {
    assert !IsSpace(digits[0]) && !IsSpace(digits[|digits| - 1]);
    StripNoop(digits);
    assert digits[0] != '-' && digits[0] != '+';
  }

  lemma ParseIntOfMinus(t: string)
    requires |t| > 1 && t[0] == '-' && AllDigits(t[1..])
    ensures ParseInt(t) == Some(0 - DigitsValue(t[1..]) as int)
  {
    assert IsDigit(t[1..][|t| - 2]);
    StripNoop(t);
  }

  /** `int(str(i)) == i`: the decimal form of an int reads back as it. */
  lemma ParseIntOfString(i: int)
    ensures ParseInt(IntToString(i)) == Some(i)
  {
    var n: nat := if i < 0 then -i else i;
    DigitsOfNat(n);
    if i < 0 {
      var t := IntToString(i);
      assert t[0] == '-' && t[1..] == NatToString(n);
      ParseIntOfMinus(t);
    } else {
      ParseIntOfDigits(NatToString(n));
    }
  }
}
