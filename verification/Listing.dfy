/** Finite sets written out in a fixed order. */
module Listing {
  import CanonicalJson

  predicate NotAfter(rank: nat -> int, a: nat, b: nat) {
    rank(a) < rank(b) || (rank(a) == rank(b) && a <= b)
  }

  lemma {:induction false} FindLeast(s: set<nat>, rank: nat -> int) returns (m: nat)
    requires s != {}
    ensures m in s && forall x :: x in s ==> NotAfter(rank, m, x)
    decreases |s|
  {
    var a :| a in s;
    var rest := s - {a};
    m := a;
    if rest != {} {
      var k := FindLeast(rest, rank);
      m := if NotAfter(rank, a, k) then a else k;
    }
    forall x | x in s ensures NotAfter(rank, m, x) {
      assert x == a || x in rest;
    }
  }

  lemma LeastExists(s: set<nat>, rank: nat -> int)
    requires s != {}
    ensures exists m :: m in s && forall x :: x in s ==> NotAfter(rank, m, x)
  {
    var m := FindLeast(s, rank);
  }

  function Least(s: set<nat>, rank: nat -> int): (m: nat)
    requires s != {}
    ensures m in s && forall x :: x in s ==> NotAfter(rank, m, x)
  {
    LeastExists(s, rank);
    var m :| m in s && forall x :: x in s ==> NotAfter(rank, m, x);
    m
  }

  /** The elements of `s`, by rank and then by number. */
  function Listed(s: set<nat>, rank: nat -> int): seq<nat>
    decreases |s|
  {
    if s == {} then [] else
      var m := Least(s, rank);
      [m] + Listed(s - {m}, rank)
  }

  lemma {:induction false} ListedElements(s: set<nat>, rank: nat -> int)
    ensures forall x :: x in Listed(s, rank) <==> x in s
    ensures forall i, j :: 0 <= i < j < |Listed(s, rank)| ==> Listed(s, rank)[i] != Listed(s, rank)[j]
    decreases |s|
  {
    if s != {} {
      var m := Least(s, rank);
      ListedElements(s - {m}, rank);
      var rest := Listed(s - {m}, rank);
      forall j | 0 <= j < |rest| ensures rest[j] != m {
        assert rest[j] in rest;
      }
    }
  }

  lemma {:induction false} ListedInOrder(s: set<nat>, rank: nat -> int)
    ensures |Listed(s, rank)| == |s|
    ensures forall i, j :: 0 <= i < j < |Listed(s, rank)| ==> NotAfter(rank, Listed(s, rank)[i], Listed(s, rank)[j])
    decreases |s|
  {
    if s != {} {
      var m := Least(s, rank);
      ListedInOrder(s - {m}, rank);
      ListedElements(s - {m}, rank);
      var rest := Listed(s - {m}, rank);
      forall j | 0 <= j < |rest| ensures NotAfter(rank, m, rest[j]) {
        assert rest[j] in rest;
      }
    }
  }

  // ---- Strings, in sorting order --------------------------------------------

  predicate Leads(m: string, s: set<string>) {
    m in s && forall x :: x in s ==> x == m || CanonicalJson.Before(m, x)
  }

  lemma {:induction false} FindFirst(s: set<string>) returns (m: string)
    requires s != {}
    ensures Leads(m, s)
    decreases |s|
  {
    var a :| a in s;
    var rest := s - {a};
    m := a;
    if rest != {} {
      var k := FindFirst(rest);
      CanonicalJson.BeforeIsTotal(a, k);
      if !CanonicalJson.Before(a, k) {
        m := k;
      }
      forall x | x in s ensures x == m || CanonicalJson.Before(m, x) {
        if x != a && m == a && x != k {
          assert x in rest;
          CanonicalJson.BeforeIsTransitive(a, k, x);
        }
      }
    }
  }

  function First(s: set<string>): (m: string)
    requires s != {}
    ensures Leads(m, s)
  {
    assert exists m :: Leads(m, s) by {
      var m := FindFirst(s);
    }
    forall m, k | Leads(m, s) && Leads(k, s) ensures m == k {
      CanonicalJson.BeforeIsTotal(m, k);
    }
    var m :| Leads(m, s);
    m
  }

  function Alphabetical(s: set<string>): seq<string>
    decreases |s|
  {
    if s == {} then [] else
      var m := First(s);
      [m] + Alphabetical(s - {m})
  }

  lemma {:induction false} AlphabeticalElements(s: set<string>)
    ensures forall x :: x in Alphabetical(s) <==> x in s
    decreases |s|
  {
    if s != {} {
      AlphabeticalElements(s - {First(s)});
    }
  }
}
