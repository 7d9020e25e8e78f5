/**
 * `np.argsort` over one row of class probabilities (model.py:152, 175) and the lookup
 * `np.where(order == target)[0][0]` (model.py:153). Probabilities are reals: only their
 * order matters. numpy's default argsort is not stable, so the properties below are
 * stated for every valid ascending order; `Argsort` is one such order.
 */
module Ranking {
  import opened Wrappers

  /** No class index occurs twice in `o`. */
  ghost predicate NoRepeats(o: seq<nat>)
  {
    forall a, b :: 0 <= a < b < |o| ==> o[a] != o[b]
  }

  /** `o` lists each class index 0..k-1 exactly once. */
  ghost predicate IsOrdering(o: seq<nat>, k: nat)
  {
    && |o| == k
    && (forall i :: 0 <= i < k ==> o[i] < k)
    && NoRepeats(o)
    && (forall c :: 0 <= c < k ==> c in o)
  }

  /** `o` is an ordering of the classes of `row` by non-decreasing probability. */
  ghost predicate IsAscendingOrder(row: seq<real>, o: seq<nat>)
  {
    IsOrdering(o, |row|) && forall i, j :: 0 <= i < j < |o| ==> row[o[i]] <= row[o[j]]
  }

  /** `o` is an ordering of the classes of `row` by non-increasing probability. */
  ghost predicate IsDescendingOrder(row: seq<real>, o: seq<nat>)
  {
    IsOrdering(o, |row|) && forall i, j :: 0 <= i < j < |o| ==> row[o[i]] >= row[o[j]]
  }

  ghost predicate Distinct(row: seq<real>)
  {
    forall i, j :: 0 <= i < |row| && 0 <= j < |row| && i != j ==> row[i] != row[j]
  }

  ghost predicate SortedBy(row: seq<real>, o: seq<nat>)
    requires forall i :: 0 <= i < |o| ==> o[i] < |row|
  {
    forall i, j :: 0 <= i < j < |o| ==> row[o[i]] <= row[o[j]]
  }

  /** Inserts class `j` into `o` after every class whose probability is at most `row[j]`. */
  function Insert(row: seq<real>, o: seq<nat>, j: nat): (r: seq<nat>)
    requires j < |row|
    requires forall i :: 0 <= i < |o| ==> o[i] < |row|
    ensures |r| == |o| + 1
    ensures forall x :: x in r <==> x in o || x == j
    ensures forall i :: 0 <= i < |r| ==> r[i] < |row|
  {
    if o == [] then [j]
    else if row[j] < row[o[0]] then [j] + o
    else [o[0]] + Insert(row, o[1..], j)
  }

  lemma {:induction false} InsertSorted(row: seq<real>, o: seq<nat>, j: nat)
    requires j < |row|
    requires forall i :: 0 <= i < |o| ==> o[i] < |row|
    requires SortedBy(row, o)
    ensures SortedBy(row, Insert(row, o, j))
  {
    if o != [] && row[o[0]] <= row[j] {
      InsertSorted(row, o[1..], j);
      var r := Insert(row, o, j);
      forall a, b | 0 <= a < b < |r| ensures row[r[a]] <= row[r[b]] {
        if a == 0 {
          assert r[b] in o[1..] || r[b] == j;
        }
      }
    }
  }

  lemma {:induction false} InsertDistinct(row: seq<real>, o: seq<nat>, j: nat)
    requires j < |row|
    requires forall i :: 0 <= i < |o| ==> o[i] < |row|
    requires NoRepeats(o)
    requires j !in o
    ensures NoRepeats(Insert(row, o, j))
  {
    var r := Insert(row, o, j);
    if o != [] && row[o[0]] <= row[j] {
      var rest := o[1..];
      assert o[0] !in rest by {
        forall k | 0 <= k < |rest| ensures rest[k] != o[0] {
          assert rest[k] == o[k + 1];
        }
      }
      InsertDistinct(row, rest, j);
      forall a, b | 0 <= a < b < |r| ensures r[a] != r[b] {
        if a == 0 {
          assert r[b] == Insert(row, rest, j)[b - 1];
          assert r[b] in Insert(row, rest, j);
        } else {
          assert r[a] == Insert(row, rest, j)[a - 1];
          assert r[b] == Insert(row, rest, j)[b - 1];
        }
      }
    } else if o != [] {
      forall a, b | 0 <= a < b < |r| ensures r[a] != r[b] {
        if a == 0 {
          assert r[b] == o[b - 1];
        } else {
          assert r[a] == o[a - 1] && r[b] == o[b - 1];
        }
      }
    }
  }

  /** Insertion of the classes 0..n-1 in turn. */
  function ArgsortPrefix(row: seq<real>, n: nat): (o: seq<nat>)
    requires n <= |row|
    ensures |o| == n
    ensures forall x :: x in o <==> 0 <= x < n
    ensures forall i :: 0 <= i < |o| ==> o[i] < |row|
  {
    if n == 0 then [] else Insert(row, ArgsortPrefix(row, n - 1), n - 1)
  }

  lemma {:induction false} ArgsortPrefixSorted(row: seq<real>, n: nat)
    requires n <= |row|
    ensures SortedBy(row, ArgsortPrefix(row, n))
  {
    if n > 0 {
      ArgsortPrefixSorted(row, n - 1);
      InsertSorted(row, ArgsortPrefix(row, n - 1), n - 1);
    }
  }

  lemma {:induction false} ArgsortPrefixDistinct(row: seq<real>, n: nat)
    requires n <= |row|
    ensures NoRepeats(ArgsortPrefix(row, n))
  {
    if n > 0 {
      ArgsortPrefixDistinct(row, n - 1);
      assert n - 1 !in ArgsortPrefix(row, n - 1);
      InsertDistinct(row, ArgsortPrefix(row, n - 1), n - 1);
    }
  }

  /** `np.argsort(row)`: the class indices by ascending probability (see ArgsortIsAscending). */
  function Argsort(row: seq<real>): (o: seq<nat>)
    ensures |o| == |row|
    ensures forall c :: c in o <==> 0 <= c < |row|
  {
    ArgsortPrefix(row, |row|)
  }

  /** `Argsort` lists every class once, by non-decreasing probability. */
  lemma ArgsortIsAscending(row: seq<real>)
    ensures IsAscendingOrder(row, Argsort(row))
  {
    ArgsortPrefixSorted(row, |row|);
    ArgsortPrefixDistinct(row, |row|);
  }

  /** `np.where(o == t)[0][0]`: the first position holding `t`, or None where numpy raises. */
  function Position(o: seq<nat>, t: nat): (r: Option<nat>)
    ensures r.None? <==> t !in o
    ensures r.Some? ==> r.value < |o| && o[r.value] == t
    ensures r.Some? ==> forall i :: 0 <= i < r.value ==> o[i] != t
  {
    if o == [] then None
    else if o[0] == t then Some(0)
    else match Position(o[1..], t)
      case None => None
      case Some(p) => Some(p + 1)
  }

  /**
   * In a valid ascending order the true class `t` has a position exactly when it is a
   * class of the row, and that position is the only one holding it.
   */
  lemma PositionOfClass(row: seq<real>, o: seq<nat>, t: nat)
    requires IsAscendingOrder(row, o)
    ensures Position(o, t).Some? <==> t < |row|
    ensures Position(o, t).Some? ==>
      forall i :: 0 <= i < |o| ==> (o[i] == t <==> i == Position(o, t).value)
  {
  }

  /**
   * With distinct probabilities the classes placed before the true class are exactly
   * those of lower probability: the position is the number of less probable classes,
   * whatever the tie-breaking.
   */
  lemma {:induction false} BeforeMeansLessProbable(row: seq<real>, o: seq<nat>, p: nat, c: nat)
    requires IsAscendingOrder(row, o) && Distinct(row)
    requires p < |o| && c < |row|
    ensures (row[c] < row[o[p]]) <==> (exists i :: 0 <= i < p && o[i] == c)
  {
    assert c in o;
    var q :| 0 <= q < |o| && o[q] == c;
    if q < p {
      assert o[q] != o[p];
      assert row[o[q]] != row[o[p]];
    } else if q > p {
      assert forall i :: 0 <= i < p ==> o[i] != c;
    } else {
      assert forall i :: 0 <= i < p ==> o[i] != c;
    }
  }

  /** Two ascending orders that agree before position `i` agree at `i` too. */
  lemma AscendingOrdersAgreeAt(row: seq<real>, o1: seq<nat>, o2: seq<nat>, i: nat)
    requires Distinct(row)
    requires IsAscendingOrder(row, o1) && IsAscendingOrder(row, o2)
    requires i < |row|
    requires forall m :: 0 <= m < i ==> o1[m] == o2[m]
    ensures o1[i] == o2[i]
  {
    var a, b := o1[i], o2[i];
    assert b in o1 && a in o2;
    var j :| 0 <= j < |o1| && o1[j] == b;
    var j' :| 0 <= j' < |o2| && o2[j'] == a;
    assert forall m :: 0 <= m < i ==> o1[m] != b && o2[m] != a;
    assert j >= i && j' >= i;
    assert row[a] <= row[b];
    assert row[b] <= row[a];
  }

  /** With distinct probabilities there is exactly one ascending order. */
  lemma {:induction false} AscendingOrderUnique(row: seq<real>, o1: seq<nat>, o2: seq<nat>)
    requires Distinct(row)
    requires IsAscendingOrder(row, o1) && IsAscendingOrder(row, o2)
    ensures o1 == o2
  {
    var i := 0;
    while i < |row|
      invariant i <= |row|
      invariant forall m :: 0 <= m < i ==> o1[m] == o2[m]
    {
      AscendingOrdersAgreeAt(row, o1, o2, i);
      i := i + 1;
    }
  }

  /** A class strictly more probable than every other sits last in any ascending order. */
  lemma TopClassIsLast(row: seq<real>, o: seq<nat>, t: nat)
    requires IsAscendingOrder(row, o)
    requires t < |row|
    requires forall c :: 0 <= c < |row| && c != t ==> row[c] < row[t]
    ensures Position(o, t) == Some(|row| - 1)
  {
    assert t in o;
    var p, q := Position(o, t).value, |row| - 1;
    assert p <= q;
    assert row[t] <= row[o[q]];
    assert o[q] == t;
  }

  /** A class strictly less probable than every other sits first in any ascending order. */
  lemma BottomClassIsFirst(row: seq<real>, o: seq<nat>, t: nat)
    requires IsAscendingOrder(row, o)
    requires t < |row|
    requires forall c :: 0 <= c < |row| && c != t ==> row[t] < row[c]
    ensures Position(o, t) == Some(0)
  {
    assert t in o;
    var p := Position(o, t).value;
    assert row[o[0]] <= row[t];
    assert o[0] == t;
  }

  /** `order[::-1]`. */
  function Reverse(s: seq<nat>): (r: seq<nat>)
    ensures |r| == |s|
    ensures forall i :: 0 <= i < |s| ==> r[i] == s[|s| - 1 - i]
  {
    if s == [] then [] else Reverse(s[1..]) + [s[0]]
  }

  lemma ReverseIsOrdering(o: seq<nat>, k: nat)
    requires IsOrdering(o, k)
    ensures IsOrdering(Reverse(o), k)
  {
    var r := Reverse(o);
    forall c | 0 <= c < k ensures c in r {
      assert c in o;
      var i :| 0 <= i < k && o[i] == c;
      assert r[k - 1 - i] == c;
    }
    forall a, b | 0 <= a < b < k ensures r[a] != r[b] {
      assert r[a] == o[k - 1 - a] && r[b] == o[k - 1 - b];
    }
  }

  /**
   * `np.argsort(row)[::-1]` (model.py:175, 177) lists every class once by
   * non-increasing probability, and its first entry is a most probable class.
   */
  lemma ReversedIsDescending(row: seq<real>, o: seq<nat>)
    requires IsAscendingOrder(row, o)
    ensures IsDescendingOrder(row, Reverse(o))
    ensures |row| > 0 ==> forall c :: 0 <= c < |row| ==> row[c] <= row[Reverse(o)[0]]
  {
    var r := Reverse(o);
    var k := |row|;
    ReverseIsOrdering(o, k);
    forall a, b | 0 <= a < b < k ensures row[r[a]] >= row[r[b]] {
      assert r[a] == o[k - 1 - a] && r[b] == o[k - 1 - b];
    }
    if k > 0 {
      forall c | 0 <= c < k ensures row[c] <= row[r[0]] {
        assert c in o;
        var i :| 0 <= i < k && o[i] == c;
        assert r[0] == o[k - 1];
      }
    }
  }

  /** A class's position in the descending order mirrors its ascending position. */
  lemma ReversedPosition(o: seq<nat>, k: nat, t: nat)
    requires IsOrdering(o, k)
    requires t < k
    ensures Position(o, t).Some?
    ensures Position(Reverse(o), t) == Some(k - 1 - Position(o, t).value)
  {
    assert t in o;
    var p := Position(o, t).value;
    var r := Reverse(o);
    assert t in r by {
      assert r[k - 1 - p] == t;
    }
    var q := Position(r, t).value;
    assert q == k - 1 - p by {
      assert o[k - 1 - q] == t == o[p];
      assert NoRepeats(o);
    }
  }
}
