/** The order `sorted` puts labels in: Python 2 compares strings character
    code by character code, and a proper prefix comes first. */
module LabelOrder {

  predicate Less(a: string, b: string)
    decreases |a|
  {
    if a == [] then b != []
    else if b == [] then false
    else if a[0] != b[0] then a[0] < b[0]
    else Less(a[1..], b[1..])
  }

  lemma {:induction false} LessIrreflexive(a: string)
    ensures !Less(a, a)
    decreases |a|
  {
    if a != [] {
      LessIrreflexive(a[1..]);
    }
  }

  lemma {:induction false} LessTransitive(a: string, b: string, c: string)
    requires Less(a, b) && Less(b, c)
    ensures Less(a, c)
    decreases |a|
  {
    if a != [] && b != [] && c != [] && a[0] == b[0] && b[0] == c[0] {
      LessTransitive(a[1..], b[1..], c[1..]);
    }
  }

  /** Two different labels are always ordered one way or the other. */
  lemma {:induction false} LessTotal(a: string, b: string)
    requires a != b
    ensures Less(a, b) || Less(b, a)
    decreases |a|
  {
    if a != [] && b != [] && a[0] == b[0] {
      assert a == [a[0]] + a[1..] && b == [b[0]] + b[1..];
      LessTotal(a[1..], b[1..]);
    }
  }

  lemma {:induction false} LessAsymmetric(a: string, b: string)
    requires Less(a, b)
    ensures !Less(b, a)
    decreases |a|
  {
    if a != [] && b != [] && a[0] == b[0] {
      LessAsymmetric(a[1..], b[1..]);
    }
  }

  /** m is the first of s in label order. */
  predicate IsLeast(m: string, s: set<string>) {
    m in s && forall x :: x in s && x != m ==> Less(m, x)
  }

  lemma {:induction false} LeastExists(s: set<string>)
    requires s != {}
    ensures exists m :: IsLeast(m, s)
    decreases |s|
  {
    var x :| x in s;
    if s - {x} == {} {
      assert s == {x};
      assert IsLeast(x, s);
    } else {
      LeastExists(s - {x});
      var m :| IsLeast(m, s - {x});
      if Less(m, x) {
        forall y | y in s && y != m ensures Less(m, y) {
        }
        assert IsLeast(m, s);
      } else {
        LessTotal(m, x);
        forall y | y in s && y != x ensures Less(x, y) {
          if y != m {
            LessTransitive(x, m, y);
          }
        }
        assert IsLeast(x, s);
      }
    }
  }

  predicate StrictlySorted(ls: seq<string>) {
    forall i, j :: 0 <= i < j < |ls| ==> Less(ls[i], ls[j])
  }

  /** The keys in increasing label order. */
  ghost function SortedLabels(keys: set<string>): (ls: seq<string>)
    ensures StrictlySorted(ls)
    ensures forall x :: x in ls <==> x in keys
    ensures |ls| == |keys|
    decreases |keys|
  {
    if keys == {} then []
    else
      LeastExists(keys);
      var m :| IsLeast(m, keys);
      var rest := SortedLabels(keys - {m});
      SortedCons(m, rest);
      [m] + rest
  }

  lemma SortedCons(m: string, rest: seq<string>)
    requires StrictlySorted(rest) && forall x :: x in rest ==> Less(m, x)
    ensures StrictlySorted([m] + rest)
  {
    var ls := [m] + rest;
    forall i, j | 0 <= i < j < |ls| ensures Less(ls[i], ls[j]) {
      if i == 0 {
        assert ls[j] == rest[j - 1];
      } else {
        assert ls[i] == rest[i - 1] && ls[j] == rest[j - 1];
      }
    }
  }

  /** There is only one strictly sorted arrangement of a set of labels. */
  lemma {:induction false} SortedUnique(a: seq<string>, b: seq<string>)
    requires StrictlySorted(a) && StrictlySorted(b)
    requires forall x :: x in a <==> x in b
    ensures a == b
    decreases |a|
  {
    if a != [] {
      assert a[0] in b;
      assert b != [];
      SameHead(a, b);
      forall x ensures x in a[1..] <==> x in b[1..] {
        if x in a[1..] {
          InTail(a, x);
          var m :| 0 <= m < |b| && b[m] == x;
          assert m != 0;
          assert b[1..][m - 1] == x;
        }
        if x in b[1..] {
          InTail(b, x);
          var m :| 0 <= m < |a| && a[m] == x;
          assert m != 0;
          assert a[1..][m - 1] == x;
        }
      }
      SortedUnique(a[1..], b[1..]);
      assert a == [a[0]] + a[1..] && b == [b[0]] + b[1..];
    } else if b != [] {
      HeadIn(b);
    }
  }

  lemma HeadIn(b: seq<string>)
    requires b != []
    ensures b[0] in b
  {
  }

  lemma SameHead(a: seq<string>, b: seq<string>)
    requires StrictlySorted(a) && StrictlySorted(b) && a != [] && b != []
    requires forall x :: x in a <==> x in b
    ensures a[0] == b[0]
  {
    assert a[0] in b && b[0] in a;
    var i :| 0 <= i < |b| && b[i] == a[0];
    var j :| 0 <= j < |a| && a[j] == b[0];
    if i != 0 {
      LessAsymmetric(b[0], a[0]);
    }
  }

  /** A label after the head of a sorted sequence differs from the head. */
  lemma InTail(a: seq<string>, x: string)
    requires StrictlySorted(a) && a != [] && x in a[1..]
    ensures x in a && x != a[0]
  {
    var k :| 0 <= k < |a| - 1 && a[1..][k] == x;
    assert a[k + 1] == x;
    LessIrreflexive(a[0]);
  }

  /** `sorted(keys)`: picks the least remaining label until none is left. */
  method SortLabels(keys: set<string>) returns (ls: seq<string>)
    ensures ls == SortedLabels(keys)
  {
    ls := [];
    var remaining := keys;
    while remaining != {}
      invariant StrictlySorted(ls)
      invariant forall x :: x in keys <==> x in ls || x in remaining
      invariant forall i, y :: 0 <= i < |ls| && y in remaining ==> Less(ls[i], y)
      decreases |remaining|
    {
      LeastExists(remaining);
      var m :| m in remaining && IsLeast(m, remaining);
      ls := ls + [m];
      remaining := remaining - {m};
      forall i, y | 0 <= i < |ls| && y in remaining ensures Less(ls[i], y) {
        if i < |ls| - 1 {
          LessTransitive(ls[i], m, y);
        }
      }
    }
    forall x ensures x in ls <==> x in SortedLabels(keys) {
    }
    SortedUnique(ls, SortedLabels(keys));
  }
}
