/** String operations the session logic relies on: Python's ordering of
    `str` values and `sorted(set(...))`, `','.join`, ASCII lowering and
    substring search, and POSIX path joining and `pathlib`'s `.name`. */
module Text {

  // ---------------------------------------------------------------------------
  // Python's `<` on str: lexicographic by code point, a proper prefix first.
  // ---------------------------------------------------------------------------

  predicate Below(a: string, b: string)
    decreases |a|
  {
    if |a| == 0 then |b| > 0
    else |b| > 0 && (a[0] < b[0] || (a[0] == b[0] && Below(a[1..], b[1..])))
  }

  lemma {:induction false} BelowIrreflexive(a: string)
    ensures !Below(a, a)
    decreases |a|
  {
    if |a| > 0 {
      BelowIrreflexive(a[1..]);
    }
  }

  lemma {:induction false} BelowTransitive(a: string, b: string, c: string)
    requires Below(a, b) && Below(b, c)
    ensures Below(a, c)
    decreases |a|
  {
    if |a| > 0 && a[0] == b[0] && b[0] == c[0] {
      BelowTransitive(a[1..], b[1..], c[1..]);
    }
  }

  lemma {:induction false} BelowTotal(a: string, b: string)
    requires a != b
    ensures Below(a, b) || Below(b, a)
    decreases |a|
  {
    if |a| > 0 && |b| > 0 && a[0] == b[0] {
      assert a == [a[0]] + a[1..] && b == [b[0]] + b[1..];
      BelowTotal(a[1..], b[1..]);
    }
  }

  /** Below is a strict total order on strings. */
  lemma BelowIsStrictOrder()
    ensures forall a :: !Below(a, a)
    ensures forall a, b, c :: Below(a, b) && Below(b, c) ==> Below(a, c)
    ensures forall a, b :: a != b ==> Below(a, b) || Below(b, a)
  {
    forall a { BelowIrreflexive(a); }
    forall a, b, c | Below(a, b) && Below(b, c) { BelowTransitive(a, b, c); }
    forall a, b | a != b { BelowTotal(a, b); }
  }

  // ---------------------------------------------------------------------------
  // sorted(set(xs))
  // ---------------------------------------------------------------------------

  function Elems(s: seq<string>): set<string>
  {
    set x | x in s
  }

  /** Strictly increasing: what `sorted` yields on a set, whose elements are distinct. */
  predicate StrictlySorted(s: seq<string>)
  {
    forall i, j :: 0 <= i < j < |s| ==> Below(s[i], s[j])
  }

  predicate IsLeast(x: string, s: set<string>)
  {
    x in s && forall y :: y in s ==> x == y || Below(x, y)
  }

  lemma {:induction false} LeastExists(s: set<string>)
    requires s != {}
    ensures exists x :: IsLeast(x, s)
    decreases |s|
  {
    var y :| y in s;
    if s == {y} {
      assert IsLeast(y, s);
    } else {
      LeastExists(s - {y});
      var z :| IsLeast(z, s - {y});
      BelowIsStrictOrder();
      if Below(y, z) {
        forall w | w in s && w != y ensures Below(y, w) {
          if w != z { BelowTransitive(y, z, w); }
        }
        assert IsLeast(y, s);
      } else {
        BelowTotal(y, z);
        assert IsLeast(z, s);
      }
    }
  }

  lemma LeastUnique(s: set<string>)
    ensures forall x, x' :: IsLeast(x, s) && IsLeast(x', s) ==> x == x'
  {
    BelowIsStrictOrder();
  }

  /** The elements of `s` in increasing order: Python's `sorted(s)`. */
  function SortedSet(s: set<string>): (r: seq<string>)
    ensures StrictlySorted(r) && Elems(r) == s && |r| == |s|
    decreases |s|
  {
    if s == {} then []
    else
      LeastExists(s);
      LeastUnique(s);
      var x :| x in s && IsLeast(x, s);
      var rest := SortedSet(s - {x});
      PrependLeast(x, s, rest);
      [x] + rest
  }

  lemma PrependLeast(x: string, s: set<string>, rest: seq<string>)
    requires IsLeast(x, s) && StrictlySorted(rest) && Elems(rest) == s - {x} && |rest| == |s - {x}|
    ensures StrictlySorted([x] + rest) && Elems([x] + rest) == s && |[x] + rest| == |s|
  {
    assert Elems([x] + rest) == {x} + Elems(rest);
    forall j | 0 <= j < |rest| ensures Below(x, rest[j]) {
      assert rest[j] in Elems(rest);
    }
  }

  /** Only the empty list has no elements. */
  lemma ElemsEmpty(a: seq<string>)
    ensures Elems(a) == {} <==> |a| == 0
  {
    if |a| > 0 {
      assert a[0] in Elems(a);
    }
  }

  /** The first element of a strictly sorted list is its least element. */
  lemma HeadIsLeast(a: seq<string>)
    requires StrictlySorted(a) && |a| > 0
    ensures IsLeast(a[0], Elems(a))
  {
    assert a[0] in Elems(a);
    forall y | y in Elems(a) ensures a[0] == y || Below(a[0], y) {
      var k :| 0 <= k < |a| && a[k] == y;
    }
  }

  /** Dropping the first element of a strictly sorted list removes it from the elements. */
  lemma TailElems(a: seq<string>)
    requires StrictlySorted(a) && |a| > 0
    ensures Elems(a[1..]) == Elems(a) - {a[0]}
  {
    BelowIsStrictOrder();
    forall x | x in Elems(a) - {a[0]} ensures x in Elems(a[1..]) {
      var k :| 0 <= k < |a| && a[k] == x;
      assert a[1..][k - 1] == x;
    }
    forall x | x in Elems(a[1..]) ensures x in Elems(a) - {a[0]} {
      var k :| 0 <= k < |a[1..]| && a[1..][k] == x;
      assert a[k + 1] == x;
    }
  }

  /** A strictly sorted listing of a set is unique: two of them with the same
      elements are the same sequence. */
  lemma {:induction false} StrictlySortedUnique(a: seq<string>, b: seq<string>)
    requires StrictlySorted(a) && StrictlySorted(b) && Elems(a) == Elems(b)
    ensures a == b
    decreases |a|
  {
    ElemsEmpty(a);
    ElemsEmpty(b);
    if |a| > 0 {
      HeadIsLeast(a);
      HeadIsLeast(b);
      LeastUnique(Elems(a));
      TailElems(a);
      TailElems(b);
      StrictlySortedUnique(a[1..], b[1..]);
      assert a == [a[0]] + a[1..] && b == [b[0]] + b[1..];
    }
  }

  /** Whatever order the elements of a set are enumerated in, the strictly
      sorted listing of them is SortedSet: `sorted(set(xs))` depends only on
      the set of `xs`. */
  lemma SortedListingIsSortedSet(r: seq<string>, s: set<string>)
    requires StrictlySorted(r) && Elems(r) == s
    ensures r == SortedSet(s)
  {
    StrictlySortedUnique(r, SortedSet(s));
  }

  // ---------------------------------------------------------------------------
  // sep.join(xs)
  // ---------------------------------------------------------------------------

  function JoinWith(sep: string, xs: seq<string>): string
    decreases |xs|
  {
    if |xs| == 0 then ""
    else if |xs| == 1 then xs[0]
    else xs[0] + sep + JoinWith(sep, xs[1..])
  }

  // ---------------------------------------------------------------------------
  // str.lower() and `part in s`
  // ---------------------------------------------------------------------------

  function LowerChar(c: char): char
  {
    if 'A' <= c <= 'Z' then (c as int + 32) as char else c
  }

  /** Lower-cases ASCII capitals; other characters are kept. */
  function Lower(s: string): (r: string)
    ensures |r| == |s|
    ensures forall i :: 0 <= i < |r| ==> !('A' <= r[i] <= 'Z')
    ensures forall i :: 0 <= i < |s| && !('A' <= s[i] <= 'Z') ==> r[i] == s[i]
    ensures forall i :: 0 <= i < |s| && 'A' <= s[i] <= 'Z' ==> r[i] as int == s[i] as int + 32
  {
    seq(|s|, i requires 0 <= i < |s| => LowerChar(s[i]))
  }

  /** Lowering twice is lowering once. */
  lemma LowerIdempotent(s: string)
    ensures Lower(Lower(s)) == Lower(s)
  {
  }

  /** Python's `part in s` on strings. */
  predicate Contains(s: string, part: string)
  {
    exists i :: 0 <= i <= |s| - |part| && OccursAt(s, part, i)
  }

  predicate OccursAt(s: string, part: string, i: int)
    requires 0 <= i <= |s| - |part|
  {
    s[i..i + |part|] == part
  }

  // ---------------------------------------------------------------------------
  // POSIX paths
  // ---------------------------------------------------------------------------

  /** `os.path.join(a, b)` on POSIX: an absolute `b` replaces `a`. */
  function PathJoin(a: string, b: string): string
  {
    if |b| > 0 && b[0] == '/' then b
    else if a == "" || a[|a| - 1] == '/' then a + b
    else a + "/" + b
  }

  /** The index just after the last '/' of `p` (0 when there is none). */
  function AfterLastSlash(p: string): (i: nat)
    ensures i <= |p| && '/' !in p[i..] && (i > 0 ==> p[i - 1] == '/')
    decreases |p|
  {
    if p == "" then 0
    else if p[|p| - 1] == '/' then |p|
    else
      var i := AfterLastSlash(p[..|p| - 1]);
      assert p[i..] == p[..|p| - 1][i..] + [p[|p| - 1]];
      i
  }

  /** `pathlib.PurePosixPath(p).name`: the last component, ignoring trailing
      separators and "." components; "" when there is none. */
  function BaseName(p: string): (r: string)
    ensures '/' !in r
    decreases |p|
  {
    if p == "" then ""
    else if p[|p| - 1] == '/' then BaseName(p[..|p| - 1])
    else
      var i := AfterLastSlash(p);
      if p[i..] == "." then BaseName(p[..i]) else p[i..]
  }

  lemma {:induction false} AfterLastSlashOfAppend(x: string, n: string)
    requires '/' !in n && (x == "" || x[|x| - 1] == '/')
    ensures AfterLastSlash(x + n) == |x|
    decreases |n|
  {
    if n == "" {
      assert x + n == x;
    } else {
      var p := x + n;
      assert p[..|p| - 1] == x + n[..|n| - 1];
      assert p[|p| - 1] == n[|n| - 1];
      AfterLastSlashOfAppend(x, n[..|n| - 1]);
    }
  }

  /** Joining a directory with a plain file name and taking the name back
      gives that file name. */
  lemma BaseNameOfJoin(dir: string, n: string)
    requires n != "" && n != "." && '/' !in n
    ensures BaseName(PathJoin(dir, n)) == n
  {
    var x := if dir == "" || dir[|dir| - 1] == '/' then dir else dir + "/";
    assert PathJoin(dir, n) == x + n;
    AfterLastSlashOfAppend(x, n);
    assert (x + n)[|x|..] == n;
  }
}
