/** Identifiers and the ordered containers built on them.

    A `uid_t` is a pair of 64-bit words compared lexicographically, which is the order of the
    128-bit number the two words spell; only equality and that order are ever used. */
module Uids {

  type Uid = nat

  const EMPTY_UID: Uid := 0

  /** The smallest member of a non-empty set. */
  function Least(s: set<Uid>): (m: Uid)
    requires s != {}
    ensures m in s && forall x | x in s :: m <= x
  {
    LeastExists(s);
    var m :| m in s && forall x | x in s :: m <= x;
    m
  }

  lemma LeastExists(s: set<Uid>)
    requires s != {}
    ensures exists m :: m in s && forall x | x in s :: m <= x
  {
    var m :| m in s;
    var smaller := set x | x in s && x < m;
    if smaller == {} {
      forall x | x in s ensures m <= x {
        assert x < m ==> x in smaller;
      }
    } else {
      assert smaller < s by { assert m !in smaller; }
      LeastExists(smaller);
      var least :| least in smaller && forall x | x in smaller :: least <= x;
      forall x | x in s ensures least <= x {
        assert x < m ==> x in smaller;
      }
    }
  }

  /** The order in which iteration over an ordered `std::set` or `std::map` visits its keys. */
  function InOrder(s: set<Uid>): (ks: seq<Uid>)
    ensures |ks| == |s|
    ensures forall x :: x in ks <==> x in s
    ensures forall i, j | 0 <= i < j < |ks| :: ks[i] < ks[j]
  {
    if s == {} then []
    else
      var m := Least(s);
      var rest := InOrder(s - {m});
      LeastFirst(s, m, rest);
      [m] + rest
  }

  lemma LeastFirst(s: set<Uid>, m: Uid, rest: seq<Uid>)
    requires m in s && forall x | x in s :: m <= x
    requires forall x :: x in rest <==> x in s - {m}
    requires forall i, j | 0 <= i < j < |rest| :: rest[i] < rest[j]
    ensures forall x :: x in [m] + rest <==> x in s
    ensures forall i, j | 0 <= i < j < |[m] + rest| :: ([m] + rest)[i] < ([m] + rest)[j]
  {
    assert forall i | 0 <= i < |rest| :: rest[i] in rest;
  }

  /** The elements of a vector, as a set. */
  function Elements(ids: seq<Uid>): (s: set<Uid>) {
    set x | x in ids
  }
}
