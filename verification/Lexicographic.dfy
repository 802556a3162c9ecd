/** Python's order on tuples: compare item by item, and a proper prefix comes first. */
module Lexicographic {

  predicate LexBefore(a: seq<nat>, b: seq<nat>) {
    b != [] && (a == [] || a[0] < b[0] || (a[0] == b[0] && LexBefore(a[1..], b[1..])))
  }

  /** The first position at which `a` and `b` differ, where `a` is the smaller or has ended. */
  ghost predicate DiffersAt(a: seq<nat>, b: seq<nat>, k: nat) {
    && k <= |a| && k < |b| && a[..k] == b[..k]
    && (k < |a| ==> a[k] < b[k])
  }

  lemma {:induction false} LexDifference(a: seq<nat>, b: seq<nat>) returns (k: nat)
    requires LexBefore(a, b)
    ensures DiffersAt(a, b, k)
  {
    if a == [] || a[0] < b[0] {
      k := 0;
    } else {
      var j := LexDifference(a[1..], b[1..]);
      k := j + 1;
      assert a[..k] == [a[0]] + a[1..][..j];
      assert b[..k] == [b[0]] + b[1..][..j];
    }
  }

  lemma {:induction false} DifferenceOrders(a: seq<nat>, b: seq<nat>, k: nat)
    requires DiffersAt(a, b, k)
    ensures LexBefore(a, b)
  {
    if k > 0 {
      assert a[0] == a[..k][0] == b[..k][0] == b[0];
      assert a[1..][..k - 1] == a[..k][1..] && b[1..][..k - 1] == b[..k][1..];
      DifferenceOrders(a[1..], b[1..], k - 1);
    }
  }

  lemma {:induction false} LexIrreflexive(a: seq<nat>)
    ensures !LexBefore(a, a)
  {
    if a != [] {
      LexIrreflexive(a[1..]);
    }
  }

  lemma {:induction false} LexTransitive(a: seq<nat>, b: seq<nat>, c: seq<nat>)
    requires LexBefore(a, b) && LexBefore(b, c)
    ensures LexBefore(a, c)
  {
    if a != [] && a[0] == b[0] == c[0] {
      LexTransitive(a[1..], b[1..], c[1..]);
    }
  }

  lemma {:induction false} LexTotal(a: seq<nat>, b: seq<nat>)
    ensures a == b || LexBefore(a, b) || LexBefore(b, a)
  {
    if a != [] && b != [] && a[0] == b[0] {
      LexTotal(a[1..], b[1..]);
      assert a == [a[0]] + a[1..] && b == [b[0]] + b[1..];
    }
  }

  lemma LexAsymmetric(a: seq<nat>, b: seq<nat>)
    requires LexBefore(a, b)
    ensures !LexBefore(b, a)
  {
    if LexBefore(b, a) {
      LexTransitive(a, b, a);
      LexIrreflexive(a);
    }
  }

  /** Appending one item keeps the order, unless the smaller tuple is a proper prefix of the other. */
  lemma LexAppend(a: seq<nat>, b: seq<nat>, x: nat)
    requires LexBefore(a, b) && !(a <= b)
    ensures LexBefore(a + [x], b + [x])
  {
    var k := LexDifference(a, b);
    assert a[..|a|] == a;
    assert (a + [x])[..k] == a[..k] && (b + [x])[..k] == b[..k];
    DifferenceOrders(a + [x], b + [x], k);
  }

  lemma PrefixIsBefore(a: seq<nat>, b: seq<nat>)
    requires a < b
    ensures LexBefore(a, b)
  {
    assert a[..|a|] == b[..|a|];
    DifferenceOrders(a, b, |a|);
  }

  // ---------------------------------------------------------------- names

  function Codes(name: string): (r: seq<nat>)
    ensures |r| == |name| && forall i | 0 <= i < |name| :: r[i] == name[i] as int
  {
    seq(|name|, i requires 0 <= i < |name| => name[i] as int)
  }

  predicate NameBefore(a: string, b: string) {
    LexBefore(Codes(a), Codes(b))
  }

  lemma CodesAreFaithful(a: string, b: string)
    requires Codes(a) == Codes(b)
    ensures a == b
  {
    forall i | 0 <= i < |a| ensures a[i] == b[i] {
      assert Codes(a)[i] == Codes(b)[i];
    }
  }

  lemma NamesAreTotal(a: string, b: string)
    ensures a == b || NameBefore(a, b) || NameBefore(b, a)
  {
    LexTotal(Codes(a), Codes(b));
    if Codes(a) == Codes(b) {
      CodesAreFaithful(a, b);
    }
  }

  /** Where one name goes before the other: at their first difference the character is smaller, or the name has
      ended. */
  ghost predicate GoesBeforeAt(a: string, b: string, k: nat) {
    k <= |a| && k < |b| && a[..k] == b[..k] && (k < |a| ==> a[k] < b[k])
  }

  lemma SameStart(a: string, b: string, k: nat)
    requires k <= |a| && k <= |b|
    ensures Codes(a)[..k] == Codes(b)[..k] <==> a[..k] == b[..k]
  {
    if Codes(a)[..k] == Codes(b)[..k] {
      forall i | 0 <= i < k ensures a[i] == b[i] {
        assert Codes(a)[..k][i] == Codes(b)[..k][i];
      }
    }
    if a[..k] == b[..k] {
      forall i | 0 <= i < k ensures Codes(a)[i] == Codes(b)[i] {
        assert a[..k][i] == b[..k][i];
      }
    }
  }

  /** The order of names is that of their characters. */
  lemma {:induction false} NameOrderExactly(a: string, b: string)
    ensures NameBefore(a, b) <==> exists k: nat :: GoesBeforeAt(a, b, k)
  {
    hide LexBefore;
    if NameBefore(a, b) {
      var k := LexDifference(Codes(a), Codes(b));
      SameStart(a, b, k);
      assert GoesBeforeAt(a, b, k);
    }
    if k: nat :| GoesBeforeAt(a, b, k) {
      SameStart(a, b, k);
      DifferenceOrders(Codes(a), Codes(b), k);
    }
  }
}
