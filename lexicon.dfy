/**
 * Python 2 ordering of `str` values and `sorted()` over the names of a
 * dictionary: the column order of the multi-weight output.
 */
module Lexicon {

  /** `a < b` on Python 2 strings: by character code, a proper prefix first. */
  predicate Less(a: string, b: string)
    decreases |a|
  {
    if a == [] then b != []
    else if b == [] then false
    else if a[0] != b[0] then a[0] < b[0]
    else Less(a[1..], b[1..])
  }

  lemma {:induction false} LessIrreflexive(a: string)
    ensures !Less(a, a)
    decreases |a|
  {
    if a != [] {
      LessIrreflexive(a[1..]);
    }
  }

  lemma {:induction false} LessTransitive(a: string, b: string, c: string)
    requires Less(a, b) && Less(b, c)
    ensures Less(a, c)
    decreases |a|
  {
    if a != [] && a[0] == b[0] && b[0] == c[0] {
      LessTransitive(a[1..], b[1..], c[1..]);
    }
  }

  /** Any two distinct strings are ordered one way or the other. */
  lemma {:induction false} LessTotal(a: string, b: string)
    ensures a == b || Less(a, b) || Less(b, a)
    decreases |a|
  {
    if a != [] && b != [] && a[0] == b[0] {
      LessTotal(a[1..], b[1..]);
      assert a == [a[0]] + a[1..];
      assert b == [b[0]] + b[1..];
    }
  }

  predicate StrictlySorted(s: seq<string>) {
    forall i, j | 0 <= i < j < |s| :: Less(s[i], s[j])
  }

  /** Inserts a new name into a strictly sorted list of names, keeping it sorted. */
  function Insert(s: seq<string>, x: string): (r: seq<string>)
    requires StrictlySorted(s) && x !in s
    ensures StrictlySorted(r)
    ensures |r| == |s| + 1
    ensures forall y :: y in r <==> y in s || y == x
    decreases |s|
  {
    if s == [] then [x]
    else if Less(x, s[0]) then
      assert forall j | 0 <= j < |s| :: Less(x, s[j]) by {
        forall j | 0 <= j < |s| ensures Less(x, s[j]) {
          if j > 0 { LessTransitive(x, s[0], s[j]); }
        }
      }
      [x] + s
    else
      LessTotal(x, s[0]);
      var t := Insert(s[1..], x);
      assert forall y | y in t :: Less(s[0], y) by {
        forall y | y in t ensures Less(s[0], y) {
          if y != x {
            var j :| 1 <= j < |s| && s[j] == y;
          }
        }
      }
      [s[0]] + t
  }

  /** `k` is a member of `keys` that comes before every other member. */
  predicate IsLeast(k: string, keys: set<string>) {
    k in keys && forall j | j in keys :: j == k || Less(k, j)
  }

  /** A non-empty finite set of names has a least element. */
  lemma {:induction false} LeastExists(keys: set<string>) returns (k: string)
    requires keys != {}
    ensures IsLeast(k, keys)
    decreases |keys|
  {
    var x :| x in keys;
    if keys == {x} {
      k := x;
    } else {
      var m := LeastExists(keys - {x});
      LessTotal(x, m);
      if Less(x, m) {
        forall j | j in keys ensures j == x || Less(x, j) {
          if j != x && j != m {
            LessTransitive(x, m, j);
          }
        }
        k := x;
      } else {
        k := m;
      }
    }
  }

  lemma HasLeast(keys: set<string>)
    requires keys != {}
    ensures exists k :: IsLeast(k, keys)
  {
    var k := LeastExists(keys);
  }

  /** Two least elements of the same set are the same name. */
  lemma LeastIsUnique(k1: string, k2: string, keys: set<string>)
    requires IsLeast(k1, keys) && IsLeast(k2, keys)
    ensures k1 == k2
  {
    if k1 != k2 {
      LessTransitive(k1, k2, k1);
      LessIrreflexive(k1);
    }
  }

  /** The names of a set in increasing order: the least first, then the rest. */
  ghost function SortedKeys(keys: set<string>): (r: seq<string>)
    ensures |r| == |keys|
    decreases |keys|
  {
    if keys == {} then []
    else
      HasLeast(keys);
      var k :| IsLeast(k, keys);
      [k] + SortedKeys(keys - {k})
  }

  /** `SortedKeys` lists every name of the set exactly once, in increasing order. */
  lemma {:induction false} SortedKeysListsKeys(keys: set<string>)
    ensures StrictlySorted(SortedKeys(keys))
    ensures forall k :: k in SortedKeys(keys) <==> k in keys
    decreases |keys|
  {
    if keys != {} {
      var k := LeastExists(keys);
      var r := SortedKeys(keys);
      assert IsLeast(r[0], keys) && r == [r[0]] + SortedKeys(keys - {r[0]});
      LeastIsUnique(k, r[0], keys);
      var rest := SortedKeys(keys - {k});
      SortedKeysListsKeys(keys - {k});
      forall j | 0 <= j < |rest| ensures Less(k, rest[j]) {
        assert rest[j] in keys - {k};
      }
    }
  }

  /**
   * `sorted(d)` for a dictionary `d`: its names in increasing order, each
   * exactly once.
   */
  method SortedNames<V>(m: map<string, V>) returns (names: seq<string>)
    ensures names == SortedKeys(m.Keys)
    ensures |names| == |m|
    ensures forall k :: k in names <==> k in m
  {
    names := [];
    var rest := m.Keys;
    while rest != {}
      invariant StrictlySorted(names)
      invariant forall k :: k in m <==> k in rest || k in names
      invariant forall k | k in names :: k !in rest
      invariant |names| + |rest| == |m|
      decreases |rest|
    {
      var k :| k in rest;
      names := Insert(names, k);
      rest := rest - {k};
    }
    SortedKeysListsKeys(m.Keys);
    SortedIsUnique(names, SortedKeys(m.Keys));
  }

  /**
   * Two strictly sorted lists of the same names are equal: the order `sorted`
   * gives is fully determined by the set of names.
   */
  lemma {:induction false} SortedIsUnique(a: seq<string>, b: seq<string>)
    requires StrictlySorted(a) && StrictlySorted(b)
    requires forall k :: k in a <==> k in b
    ensures a == b
    decreases |a|
  {
    if a != [] {
      assert a[0] in a;
    }
    if b != [] {
      assert b[0] in b;
    }
    if a != [] && b != [] {
      if a[0] != b[0] {
        var i :| 0 <= i < |b| && b[i] == a[0];
        var j :| 0 <= j < |a| && a[j] == b[0];
        assert i > 0 && j > 0;
        LessTransitive(a[0], a[j], a[0]);
        LessIrreflexive(a[0]);
      }
      assert a == [a[0]] + a[1..];
      assert b == [b[0]] + b[1..];
      forall k ensures k in a[1..] <==> k in b[1..] {
        if k in a[1..] {
          var i :| 1 <= i < |a| && a[i] == k;
          assert Less(a[0], k);
          LessIrreflexive(k);
          assert k in b && k != b[0];
        }
        if k in b[1..] {
          var i :| 1 <= i < |b| && b[i] == k;
          assert Less(b[0], k);
          LessIrreflexive(k);
          assert k in a && k != a[0];
        }
      }
      SortedIsUnique(a[1..], b[1..]);
      assert a == [a[0]] + a[1..];
      assert b == [b[0]] + b[1..];
    }
  }
}
