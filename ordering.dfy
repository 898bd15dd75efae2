/**
 * A query without `ordering` returns its rows in an order the database chooses. The model
 * fixes one: ascending primary key.
 */
module Ordering {

  predicate StrictlyIncreasing(s: seq<nat>)
  {
    forall i, j :: 0 <= i < j < |s| ==> s[i] < s[j]
  }

  lemma LeastExists(s: set<nat>)
    requires s != {}
    ensures exists m :: m in s && forall x :: x in s ==> m <= x
  {
    var y :| y in s;
    LeastFrom(s, y, 0);
  }

  /** Counting up from a lower bound `k` of `s` reaches an element of `s` by `y`. */
  lemma {:induction false} LeastFrom(s: set<nat>, y: nat, k: nat)
    requires y in s && k <= y
    requires forall x :: x in s ==> k <= x
    ensures exists m :: m in s && forall x :: x in s ==> m <= x
    decreases y - k
  {
    if k !in s {
      LeastFrom(s, y, k + 1);
    }
  }

  /** The smallest element of a non-empty set. */
  function Least(s: set<nat>): (m: nat)
    requires s != {}
    ensures m in s
    ensures forall x :: x in s ==> m <= x
  {
    LeastExists(s);
    var m :| m in s && forall x :: x in s ==> m <= x;
    m
  }

  /** The elements of `s`, each once, in ascending order. */
  function SortedIds(s: set<nat>): (r: seq<nat>)
    ensures |r| == |s|
    ensures forall x :: x in s <==> x in r
    ensures forall i :: 0 <= i < |r| ==> r[i] in s
    ensures StrictlyIncreasing(r)
    decreases |s|
  {
    if s == {} then []
    else
      var m := Least(s);
      var rest := SortedIds(s - {m});
      PrependLeast(s, m, rest);
      [m] + rest
  }

  /** Putting the least element in front of an ascending listing of the others lists `s`. */
  lemma PrependLeast(s: set<nat>, m: nat, rest: seq<nat>)
    requires m in s && forall x :: x in s ==> m <= x
    requires |rest| == |s - {m}| && StrictlyIncreasing(rest)
    requires forall x :: x in s - {m} <==> x in rest
    ensures |[m] + rest| == |s|
    ensures forall x :: x in s <==> x in [m] + rest
    ensures StrictlyIncreasing([m] + rest)
  {
    var r := [m] + rest;
    forall i, j | 0 <= i < j < |r|
      ensures r[i] < r[j]
    {
      assert r[j] == rest[j - 1];
      if i > 0 {
        assert r[i] == rest[i - 1];
      } else {
        assert rest[j - 1] in s - {m};
      }
    }
  }
}
