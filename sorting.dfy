/**
 * Python's `sorted(...)` on lists of strings, and `sorted(list(set(...)))`,
 * over the lexicographic order of module Strings.
 */
module Sorting {
  import opened Strings

  /** Non-decreasing: what `sorted(xs)` returns. */
  predicate Sorted(s: seq<string>) {
    forall i, j :: 0 <= i < j < |s| ==> LessEq(s[i], s[j])
  }

  /** Increasing, hence duplicate-free: what `sorted(list(a_set))` returns. */
  predicate StrictlySorted(s: seq<string>) {
    forall i, j :: 0 <= i < j < |s| ==> Less(s[i], s[j])
  }

  function Elements(s: seq<string>): set<string> {
    set i | 0 <= i < |s| :: s[i]
  }

  lemma ElementsIn(s: seq<string>)
    ensures forall x :: x in Elements(s) <==> x in s
  {
    forall x | x in s ensures x in Elements(s) {
      var i :| 0 <= i < |s| && s[i] == x;
    }
  }

  /** Insert `x` into a sorted list after the elements smaller than it. */
  function Insert(x: string, s: seq<string>): (r: seq<string>)
    requires Sorted(s)
    ensures Sorted(r) && multiset(r) == multiset(s) + multiset{x}
  {
    if |s| == 0 then [x]
    else if LessEq(x, s[0]) then
      InsertFront(x, s);
      [x] + s
    else
      var r' := Insert(x, s[1..]);
      InsertBehind(s[0], x, s[1..], r');
      assert s == [s[0]] + s[1..];
      [s[0]] + r'
  }

  lemma InsertFront(x: string, s: seq<string>)
    requires Sorted(s) && |s| > 0 && LessEq(x, s[0])
    ensures Sorted([x] + s)
  {
    forall j | 0 < j <= |s| ensures LessEq(x, ([x] + s)[j]) {
      if j > 1 {
        LessEqTransitive(x, s[0], s[j - 1]);
      }
    }
  }

  lemma InsertBehind(h: string, x: string, t: seq<string>, r: seq<string>)
    requires Sorted([h] + t) && Sorted(r) && !LessEq(x, h)
    requires multiset(r) == multiset(t) + multiset{x}
    ensures Sorted([h] + r)
  {
    LessTotal(x, h);
    forall j | 0 <= j < |r| ensures LessEq(h, r[j]) {
      assert r[j] in multiset(r);
      if r[j] != x {
        assert r[j] in multiset(t);
        var k :| 0 <= k < |t| && t[k] == r[j];
        assert ([h] + t)[0] == h && ([h] + t)[k + 1] == t[k];
      }
    }
  }

  /** `sorted(xs)`: an ordered permutation of `xs`, duplicates kept. */
  function Sort(xs: seq<string>): (r: seq<string>)
    ensures Sorted(r) && multiset(r) == multiset(xs)
  {
    if |xs| == 0 then []
    else
      assert xs == [xs[0]] + xs[1..];
      Insert(xs[0], Sort(xs[1..]))
  }

  /** Insert `x` into an increasing list unless it is already there. */
  function InsertUnique(x: string, s: seq<string>): (r: seq<string>)
    requires StrictlySorted(s)
    ensures StrictlySorted(r) && Elements(r) == Elements(s) + {x}
  {
    if |s| == 0 then
      ElementsCons(x, s);
      assert [x] + s == [x];
      [x]
    else if x == s[0] then s
    else if Less(x, s[0]) then
      InsertUniqueFront(x, s);
      [x] + s
    else
      var r' := InsertUnique(x, s[1..]);
      InsertUniqueBehind(s[0], x, s[1..], r');
      assert s == [s[0]] + s[1..];
      [s[0]] + r'
  }

  lemma InsertUniqueFront(x: string, s: seq<string>)
    requires StrictlySorted(s) && |s| > 0 && Less(x, s[0])
    ensures StrictlySorted([x] + s) && Elements([x] + s) == Elements(s) + {x}
  {
    forall j | 0 < j <= |s| ensures Less(x, ([x] + s)[j]) {
      if j > 1 {
        LessTransitive(x, s[0], s[j - 1]);
      }
    }
    ElementsCons(x, s);
  }

  lemma InsertUniqueBehind(h: string, x: string, t: seq<string>, r: seq<string>)
    requires StrictlySorted([h] + t) && StrictlySorted(r) && x != h && !Less(x, h)
    requires Elements(r) == Elements(t) + {x}
    ensures StrictlySorted([h] + r) && Elements([h] + r) == Elements([h] + t) + {x}
  {
    LessTotal(x, h);
    ElementsIn(t);
    forall j | 0 <= j < |r| ensures Less(h, r[j]) {
      assert r[j] in Elements(r);
      if r[j] != x {
        assert r[j] in Elements(t);
        var k :| 0 <= k < |t| && t[k] == r[j];
        assert ([h] + t)[0] == h && ([h] + t)[k + 1] == t[k];
      }
    }
    ElementsCons(h, r);
    ElementsCons(h, t);
  }

  lemma ElementsCons(x: string, s: seq<string>)
    ensures Elements([x] + s) == Elements(s) + {x}
  {
    ElementsIn([x] + s);
    ElementsIn(s);
  }

  /** `sorted(list(set(xs)))`: the distinct elements of `xs`, increasing. */
  function SortedSet(xs: seq<string>): (r: seq<string>)
    ensures StrictlySorted(r) && Elements(r) == Elements(xs)
  {
    if |xs| == 0 then []
    else
      assert xs == [xs[0]] + xs[1..];
      ElementsCons(xs[0], xs[1..]);
      InsertUnique(xs[0], SortedSet(xs[1..]))
  }

  /** The elements of `s` not in `drop`, in their order. */
  function Without(s: seq<string>, drop: set<string>): (r: seq<string>)
    ensures Elements(r) == Elements(s) - drop
  {
    if |s| == 0 then []
    else
      var rest := Without(s[1..], drop);
      ElementsCons(s[0], s[1..]);
      assert s == [s[0]] + s[1..];
      if s[0] in drop then rest
      else
        ElementsCons(s[0], rest);
        [s[0]] + rest
  }

  /** Dropping elements keeps an increasing list increasing. */
  lemma {:induction false} WithoutStrictlySorted(s: seq<string>, drop: set<string>)
    requires StrictlySorted(s)
    ensures StrictlySorted(Without(s, drop))
  {
    if |s| > 0 {
      WithoutStrictlySorted(s[1..], drop);
      var rest := Without(s[1..], drop);
      if s[0] !in drop {
        forall i | 0 <= i < |rest| ensures Less(s[0], rest[i]) {
          assert rest[i] in Elements(rest);
          ElementsIn(s[1..]);
          var j :| 0 <= j < |s[1..]| && s[1..][j] == rest[i];
          assert s[j + 1] == rest[i];
        }
      }
    }
  }

  /** An increasing list is determined by its elements. */
  lemma {:induction false} StrictlySortedUnique(a: seq<string>, b: seq<string>)
    requires StrictlySorted(a) && StrictlySorted(b) && Elements(a) == Elements(b)
    ensures a == b
  {
    if |a| == 0 || |b| == 0 {
      EmptyElements(a);
      EmptyElements(b);
    } else {
      HeadLeast(a);
      HeadLeast(b);
      ElementsIn(a);
      ElementsIn(b);
      assert a[0] in Elements(b) && b[0] in Elements(a);
      LessEqAntisymmetric(a[0], b[0]);
      TailElements(a);
      TailElements(b);
      StrictlySortedUnique(a[1..], b[1..]);
      assert a == [a[0]] + a[1..] && b == [b[0]] + b[1..];
    }
  }

  lemma EmptyElements(s: seq<string>)
    ensures Elements(s) == {} <==> |s| == 0
  {
    if |s| > 0 {
      assert s[0] in Elements(s);
    }
  }

  /** The head of an increasing list is its least element. */
  lemma HeadLeast(s: seq<string>)
    requires StrictlySorted(s) && |s| > 0
    ensures forall x :: x in Elements(s) ==> LessEq(s[0], x)
  {
    forall x | x in Elements(s) ensures LessEq(s[0], x) {
      var i :| 0 <= i < |s| && s[i] == x;
      if i > 0 {
        assert Less(s[0], s[i]);
      }
    }
  }

  lemma TailElements(s: seq<string>)
    requires StrictlySorted(s) && |s| > 0
    ensures Elements(s[1..]) == Elements(s) - {s[0]}
  {
    ElementsCons(s[0], s[1..]);
    assert s == [s[0]] + s[1..];
    if s[0] in Elements(s[1..]) {
      var k :| 0 <= k < |s[1..]| && s[1..][k] == s[0];
      assert s[k + 1] == s[0];
      LessIrreflexive(s[0]);
    }
  }
}
