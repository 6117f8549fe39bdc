/**
 * The landlords manager: one poll cycle gathers every landlord's listings,
 * keeps those meeting the required rooms and area, reports the ones whose
 * link was not in the previous cycle's batch, and stores the whole batch as
 * the new baseline.
 */
module Networking {
  import opened Listings
  import opened Seqs

  /** The per-landlord filter: minimum rooms and area; rent is not checked. */
  predicate MeetsRequired(a: Apartment, required: Apartment)
  {
    a.rooms >= required.rooms && a.area >= required.area
  }

  /** One landlord's list, filtered by the required thresholds. */
  function FilterRequired(apartments: seq<Apartment>, required: Apartment): (r: seq<Apartment>)
    ensures forall a :: a in r <==> a in apartments && MeetsRequired(a, required)
  {
    FilterMembershipAll(apartments, a => MeetsRequired(a, required));
    Filter(apartments, a => MeetsRequired(a, required))
  }

  /**
   * The batch of one cycle: every landlord's filtered list, concatenated in
   * landlord order. `fetched[k]` is what landlord `k` delivered.
   */
  function Batch(fetched: seq<seq<Apartment>>, required: Apartment): (r: seq<Apartment>)
    ensures forall i :: 0 <= i < |r| ==> MeetsRequired(r[i], required)
  {
    if fetched == [] then []
    else Batch(fetched[..|fetched| - 1], required) + FilterRequired(fetched[|fetched| - 1], required)
  }

  /** True iff some listing of `apartments` has the given link. */
  predicate HasLink(apartments: seq<Apartment>, link: string)
  {
    exists j :: 0 <= j < |apartments| && apartments[j].link == link
  }

  /** The listings of `current` whose link matches no listing of `previous`. */
  function ComparePreviousApartments(current: seq<Apartment>, previous: seq<Apartment>): (r: seq<Apartment>)
    ensures forall a :: a in r <==> a in current && !HasLink(previous, a.link)
  {
    FilterMembershipAll(current, (a: Apartment) => !HasLink(previous, a.link));
    Filter(current, (a: Apartment) => !HasLink(previous, a.link))
  }

  /** Each listing carries its position as index; nothing else changes. */
  function Indexed(apartments: seq<Apartment>): (r: seq<Apartment>)
    ensures |r| == |apartments|
    ensures forall i :: 0 <= i < |r| ==> r[i].index == i
    ensures forall i :: 0 <= i < |r| ==> SameExceptIndex(r[i], apartments[i])
  {
    seq(|apartments|, i requires 0 <= i < |apartments| => apartments[i].(index := i))
  }

  // ---- Properties of the per-landlord filter and the batch ----

  /** `a` and `b` agree on every field except `rent`. */
  predicate SameExceptRent(a: Apartment, b: Apartment)
  {
    a.(rent := 0) == b.(rent := 0)
  }

  /**
   * Rent plays no part in the per-landlord filter: two lists that differ only
   * in rents keep the same positions.
   */
  lemma {:induction false} RentNotChecked(s: seq<Apartment>, t: seq<Apartment>, required: Apartment)
    requires |s| == |t|
    requires forall i :: 0 <= i < |s| ==> SameExceptRent(s[i], t[i])
    ensures |FilterRequired(s, required)| == |FilterRequired(t, required)|
    ensures forall j :: 0 <= j < |FilterRequired(s, required)| ==>
              SameExceptRent(FilterRequired(s, required)[j], FilterRequired(t, required)[j])
  {
    if s != [] {
      assert SameExceptRent(s[0], t[0]);
      assert s[0].rooms == t[0].rooms && s[0].area == t[0].area;
      RentNotChecked(s[1..], t[1..], required);
    }
  }

  /** The per-landlord filter keeps the listings of its input in order and multiplicity. */
  lemma FilterRequiredShape(apartments: seq<Apartment>, required: Apartment, a: Apartment)
    ensures IsSubsequence(FilterRequired(apartments, required), apartments)
    ensures multiset(FilterRequired(apartments, required))[a] ==
            if MeetsRequired(a, required) then multiset(apartments)[a] else 0
  {
    FilterIsSubsequence(apartments, x => MeetsRequired(x, required));
    FilterMultiplicity(apartments, x => MeetsRequired(x, required), a);
  }

  lemma {:induction false} BatchAppend(f: seq<seq<Apartment>>, g: seq<seq<Apartment>>, required: Apartment)
    ensures Batch(f + g, required) == Batch(f, required) + Batch(g, required)
    decreases |g|
  {
    if g == [] {
      assert f + g == f;
    } else {
      var n := |g| - 1;
      assert (f + g)[..|f + g| - 1] == f + g[..n];
      assert (f + g)[|f + g| - 1] == g[n];
      BatchAppend(f, g[..n], required);
    }
  }

  /** All landlords' lists joined into one, in landlord order. */
  function Flatten(fetched: seq<seq<Apartment>>): seq<Apartment>
  {
    if fetched == [] then [] else Flatten(fetched[..|fetched| - 1]) + fetched[|fetched| - 1]
  }

  /** Filtering per landlord and concatenating equals filtering the joined lists once. */
  lemma {:induction false} BatchIsFilterOfAll(fetched: seq<seq<Apartment>>, required: Apartment)
    ensures Batch(fetched, required) == FilterRequired(Flatten(fetched), required)
  {
    if fetched != [] {
      var n := |fetched| - 1;
      BatchIsFilterOfAll(fetched[..n], required);
      FilterAppend(Flatten(fetched[..n]), fetched[n], x => MeetsRequired(x, required));
    }
  }

  /** No landlord's accepted listings are dropped: each sits in place in the batch. */
  lemma BatchSplit(fetched: seq<seq<Apartment>>, required: Apartment, k: nat)
    requires k < |fetched|
    ensures Batch(fetched, required) ==
            Batch(fetched[..k], required) + FilterRequired(fetched[k], required) + Batch(fetched[k + 1..], required)
  {
    assert fetched == fetched[..k] + [fetched[k]] + fetched[k + 1..];
    BatchAppend(fetched[..k] + [fetched[k]], fetched[k + 1..], required);
    BatchAppend(fetched[..k], [fetched[k]], required);
    assert [fetched[k]][..0] == [];
  }

  /** A listing is in the batch iff some landlord delivered it and it meets the thresholds. */
  lemma {:induction false} BatchMembership(fetched: seq<seq<Apartment>>, required: Apartment, a: Apartment)
    ensures a in Batch(fetched, required) <==>
            MeetsRequired(a, required) && exists k :: 0 <= k < |fetched| && a in fetched[k]
  {
    if fetched != [] {
      var n := |fetched| - 1;
      var init := fetched[..n];
      BatchMembership(init, required, a);
      if a in Batch(fetched, required) {
        if a in Batch(init, required) {
          var k :| 0 <= k < |init| && a in init[k];
          assert a in fetched[k];
        } else {
          assert a in fetched[n];
        }
      }
      if MeetsRequired(a, required) && exists k :: 0 <= k < |fetched| && a in fetched[k] {
        var k :| 0 <= k < |fetched| && a in fetched[k];
        if k < n {
          assert a in init[k];
        }
      }
    }
  }

  // ---- Properties of the diff against the previous batch ----

  /** The diff keeps the listings of `current` in their order and multiplicity. */
  lemma DiffShape(current: seq<Apartment>, previous: seq<Apartment>, a: Apartment)
    ensures IsSubsequence(ComparePreviousApartments(current, previous), current)
    ensures multiset(ComparePreviousApartments(current, previous))[a] ==
            if HasLink(previous, a.link) then 0 else multiset(current)[a]
  {
    FilterIsSubsequence(current, (x: Apartment) => !HasLink(previous, x.link));
    FilterMultiplicity(current, (x: Apartment) => !HasLink(previous, x.link), a);
  }

  /** Against an empty baseline (a fresh manager) every listing is new. */
  lemma DiffAgainstEmpty(current: seq<Apartment>)
    ensures ComparePreviousApartments(current, []) == current
  {
    FilterKeepsAll(current, (x: Apartment) => !HasLink([], x.link));
  }

  /** A batch compared with itself has nothing new. */
  lemma DiffAgainstItself(current: seq<Apartment>)
    ensures ComparePreviousApartments(current, current) == []
  {
    forall i | 0 <= i < |current| ensures HasLink(current, current[i].link) {
      assert current[i].link == current[i].link;
    }
    FilterEmptyIff(current, (x: Apartment) => !HasLink(current, x.link));
  }

  /** The diff is empty iff every listing's link is already in the baseline. */
  lemma DiffEmptyIff(current: seq<Apartment>, previous: seq<Apartment>)
    ensures ComparePreviousApartments(current, previous) == [] <==>
            forall i :: 0 <= i < |current| ==> HasLink(previous, current[i].link)
  {
    FilterEmptyIff(current, (x: Apartment) => !HasLink(previous, x.link));
  }

  /**
   * The manager. `requiredApartment` holds the thresholds;
   * `previousApartments` is the baseline for the next diff.
   */
  class LandlordsManager {
    var requiredApartment: Apartment
    var previousApartments: seq<Apartment>

    constructor (requiredApartment: Apartment)
      ensures this.requiredApartment == requiredApartment
      ensures previousApartments == []
    {
      this.requiredApartment := requiredApartment;
      previousApartments := [];
    }

    /**
     * One poll cycle. `fetched` holds one list per landlord, in landlord
     * order. Returns the new listings, indexed 0..n-1; the whole filtered
     * batch becomes the baseline.
     */
    method Start(fetched: seq<seq<Apartment>>) returns (indexedApartments: seq<Apartment>)
      modifies this
      ensures requiredApartment == old(requiredApartment)
      ensures previousApartments == Batch(fetched, requiredApartment)
      ensures indexedApartments == Indexed(ComparePreviousApartments(previousApartments, old(previousApartments)))
    {
      var currentApartments: seq<Apartment> := [];
      for k := 0 to |fetched|
        invariant currentApartments == Batch(fetched[..k], requiredApartment)
      {
        assert fetched[..k + 1][..k] == fetched[..k];
        currentApartments := currentApartments + FilterRequired(fetched[k], requiredApartment);
      }
      assert fetched[..|fetched|] == fetched;
      var newApartments := ComparePreviousApartments(currentApartments, previousApartments);
      previousApartments := currentApartments;
      indexedApartments := Indexed(newApartments);
    }
  }

  /** Two cycles over the same fetched data: the second reports nothing. */
  method RepeatCycle(manager: LandlordsManager, fetched: seq<seq<Apartment>>)
    returns (first: seq<Apartment>, second: seq<Apartment>)
    modifies manager
    ensures manager.previousApartments == Batch(fetched, manager.requiredApartment)
    ensures second == []
  {
    first := manager.Start(fetched);
    second := manager.Start(fetched);
    DiffAgainstItself(manager.previousApartments);
  }
}
