/** The address store (src/lib/store.ts): one list of addresses that three
    updaters replace wholesale, each with a pure function of the old list
    (spread-append, `map` and `filter`). */
module Store {
  import opened Seqs
  import opened Types

  /* ---------------------------------------------------------------------- */
  /* The updater bodies                                                      */
  /* ---------------------------------------------------------------------- */

  /** `addresses.map(a => a.id === u.id ? u : a)`: every element carrying the
      id of `u` becomes `u`; the others stay where they are. */
  function Replaced(s: seq<Address>, u: Address): (r: seq<Address>)
    ensures |r| == |s|
    ensures forall i :: 0 <= i < |s| ==> r[i] == (if s[i].id == u.id then u else s[i])
  {
    if s == [] then []
    else [if s[0].id == u.id then u else s[0]] + Replaced(s[1..], u)
  }

  /** `addresses.filter(a => a.id !== id)`. */
  function Removed(s: seq<Address>, id: string): (r: seq<Address>)
    ensures forall i :: 0 <= i < |r| ==> r[i].id != id
    ensures IsSubsequence(r, s)
  {
    Filter(s, (a: Address) => a.id != id)
  }

  /* ---------------------------------------------------------------------- */
  /* Identity                                                                */
  /* ---------------------------------------------------------------------- */

  predicate HasId(s: seq<Address>, id: string) {
    exists i :: 0 <= i < |s| && s[i].id == id
  }

  /** No two records share an id. The store does not enforce this. */
  ghost predicate UniqueIds(s: seq<Address>) {
    forall i, j :: 0 <= i < |s| && 0 <= j < |s| && i != j ==> s[i].id != s[j].id
  }

  /** The ids of a list, position by position. */
  function Ids(s: seq<Address>): (ids: seq<string>)
    ensures |ids| == |s|
    ensures forall i :: 0 <= i < |s| ==> ids[i] == s[i].id
  {
    if s == [] then [] else [s[0].id] + Ids(s[1..])
  }

  /* ---------------------------------------------------------------------- */
  /* The store                                                               */
  /* ---------------------------------------------------------------------- */

  /** `useAddressStore`: the `addresses` state and its three updaters. */
  class AddressStore {
    var addresses: seq<Address>

    /** The initial state is the empty list. */
    constructor ()
      ensures addresses == []
    {
      addresses := [];
    }

    /** `addAddress`: appends, without looking at the ids already present. */
    method AddAddress(a: Address)
      modifies this
      ensures addresses == old(addresses) + [a]
    {
      addresses := addresses + [a];
    }

    /** `updateAddress`: replaces every record with the same id; an unknown
        id leaves the list as it was and reports nothing. */
    method UpdateAddress(u: Address)
      modifies this
      ensures addresses == Replaced(old(addresses), u)
      ensures !HasId(old(addresses), u.id) ==> addresses == old(addresses)
    {
      addresses := Replaced(addresses, u);
      ReplacedAbsentIsNoOp(old(addresses), u);
    }

    /** `removeAddress`: drops every record with the given id. */
    method RemoveAddress(id: string)
      modifies this
      ensures addresses == Removed(old(addresses), id)
      ensures !HasId(addresses, id)
      ensures !HasId(old(addresses), id) ==> addresses == old(addresses)
    {
      addresses := Removed(addresses, id);
      RemovedAbsentIsNoOp(old(addresses), id);
    }
  }

  /* ---------------------------------------------------------------------- */
  /* addAddress                                                              */
  /* ---------------------------------------------------------------------- */

  /** Appending grows the list by one and keeps every earlier record in place. */
  lemma AppendKeepsPositions(s: seq<Address>, a: Address)
    ensures |s + [a]| == |s| + 1 && (s + [a])[|s|] == a
    ensures forall i :: 0 <= i < |s| ==> (s + [a])[i] == s[i]
  {
  }

  /** Adding a record whose id is fresh keeps the ids unique. */
  lemma AppendFreshKeepsUnique(s: seq<Address>, a: Address)
    requires UniqueIds(s) && !HasId(s, a.id)
    ensures UniqueIds(s + [a])
  {
    var t := s + [a];
    forall i, j | 0 <= i < |t| && 0 <= j < |t| && i != j
      ensures t[i].id != t[j].id
    {
      if i == |s| {
        assert t[j] == s[j];
      } else if j == |s| {
        assert t[i] == s[i];
      } else {
        assert t[i] == s[i] && t[j] == s[j];
      }
    }
  }

  /** With no collision check, adding an id that is already present yields a duplicate. */
  lemma AppendTakenIdDuplicates(s: seq<Address>, a: Address)
    requires HasId(s, a.id)
    ensures !UniqueIds(s + [a])
  {
    var i :| 0 <= i < |s| && s[i].id == a.id;
    assert (s + [a])[i].id == (s + [a])[|s|].id;
  }

  /* ---------------------------------------------------------------------- */
  /* updateAddress                                                           */
  /* ---------------------------------------------------------------------- */

  /** An update never changes which id sits at which position. */
  lemma ReplacedKeepsIds(s: seq<Address>, u: Address)
    ensures Ids(Replaced(s, u)) == Ids(s)
  {
  }

  /** An unknown id leaves the list identical. */
  lemma ReplacedAbsentIsNoOp(s: seq<Address>, u: Address)
    ensures !HasId(s, u.id) ==> Replaced(s, u) == s
  {
  }

  /** A known id ends up holding exactly the new record. */
  lemma ReplacedPresent(s: seq<Address>, u: Address)
    requires HasId(s, u.id)
    ensures u in Replaced(s, u)
    ensures forall a :: a in Replaced(s, u) && a.id == u.id ==> a == u
  {
    var i :| 0 <= i < |s| && s[i].id == u.id;
    assert Replaced(s, u)[i] == u;
  }

  lemma ReplacedKeepsUnique(s: seq<Address>, u: Address)
    requires UniqueIds(s)
    ensures UniqueIds(Replaced(s, u))
  {
    ReplacedKeepsIds(s, u);
  }

  lemma ReplacedIdempotent(s: seq<Address>, u: Address)
    ensures Replaced(Replaced(s, u), u) == Replaced(s, u)
  {
  }

  /* ---------------------------------------------------------------------- */
  /* removeAddress                                                           */
  /* ---------------------------------------------------------------------- */

  /** Every other record is kept as often as it occurred. */
  lemma RemovedCounts(s: seq<Address>, id: string)
    ensures forall a :: multiset(Removed(s, id))[a] == if a.id == id then 0 else multiset(s)[a]
  {
    FilterCounts(s, (a: Address) => a.id != id);
  }

  /** Removing an absent id is a no-op. */
  lemma RemovedAbsentIsNoOp(s: seq<Address>, id: string)
    ensures !HasId(s, id) ==> Removed(s, id) == s
  {
    FilterKeepsAll(s, (a: Address) => a.id != id);
  }

  /** Removing twice is removing once. */
  lemma RemovedIdempotent(s: seq<Address>, id: string)
    ensures Removed(Removed(s, id), id) == Removed(s, id)
  {
    FilterIdempotent(s, (a: Address) => a.id != id);
  }

  lemma RemovedKeepsUnique(s: seq<Address>, id: string)
    requires UniqueIds(s)
    ensures UniqueIds(Removed(s, id))
  {
    var r := Removed(s, id);
    SubsequenceKeepsUnique(r, s);
  }

  /** Deleting elements cannot create a duplicate id. */
  lemma {:induction false} SubsequenceKeepsUnique(r: seq<Address>, s: seq<Address>)
    requires IsSubsequence(r, s) && UniqueIds(s)
    ensures UniqueIds(r)
    decreases |s|
  {
    if r != [] && s != [] {
      assert UniqueIds(s[1..]) by {
        assert forall i :: 0 <= i < |s| - 1 ==> s[1..][i] == s[i + 1];
      }
      if r[0] == s[0] && IsSubsequence(r[1..], s[1..]) {
        SubsequenceKeepsUnique(r[1..], s[1..]);
        SubsequenceIn(r[1..], s[1..]);
        forall j | 0 < j < |r|
          ensures r[0].id != r[j].id
        {
          assert r[j] == r[1..][j - 1];
          var k :| 0 <= k < |s[1..]| && s[1..][k] == r[j];
          assert s[k + 1] == r[j];
        }
      } else {
        SubsequenceKeepsUnique(r, s[1..]);
      }
    }
  }
}
