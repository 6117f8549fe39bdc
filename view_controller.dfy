/**
 * The engine state of the view controller: the priming / running flag, the
 * accumulated listings, the filtered list the table shows, and the
 * start / pause / stop transitions around the timer callback.
 */
module Engine {
  import opened Listings
  import opened Seqs
  import opened Networking

  /** The user's display criteria (the update interval is not modelled). */
  datatype Options = Options(rooms: int, area: int, rent: int)

  /** `apartmentSatisfyCurrentFilter`: minimum rooms and area, maximum rent. */
  predicate SatisfiesCurrentFilter(a: Apartment, options: Options)
  {
    a.rooms >= options.rooms && a.area >= options.area && a.rent <= options.rent
  }

  /** The list the table shows: `currentApartments` filtered by the options, in order. */
  function DisplayFilter(apartments: seq<Apartment>, options: Options): (r: seq<Apartment>)
    ensures forall a :: a in r <==> a in apartments && SatisfiesCurrentFilter(a, options)
  {
    FilterMembershipAll(apartments, a => SatisfiesCurrentFilter(a, options));
    Filter(apartments, a => SatisfiesCurrentFilter(a, options))
  }

  /**
   * The index a freshly built `Apartment` gets: the copies stamped as new are
   * built without passing `index`, so they carry the record's default.
   */
  const DefaultIndex: int := 0

  /** The copy of a delivered listing that a later cycle inserts, marked as new. */
  function Stamp(a: Apartment): Apartment
  {
    Apartment(a.link, a.rooms, a.area, a.rent, true, DefaultIndex)
  }

  /** Every delivered listing, copied in order and marked new. */
  function StampAll(apartments: seq<Apartment>): (r: seq<Apartment>)
    ensures |r| == |apartments|
    ensures forall i :: 0 <= i < |r| ==> r[i].isNew && r[i].index == DefaultIndex
    ensures forall i :: 0 <= i < |r| ==>
      r[i].link == apartments[i].link && r[i].rooms == apartments[i].rooms &&
      r[i].area == apartments[i].area && r[i].rent == apartments[i].rent
  {
    seq(|apartments|, i requires 0 <= i < |apartments| => Stamp(apartments[i]))
  }

  /** True iff some listing of `apartments` passes the current filter. */
  predicate AnySatisfies(apartments: seq<Apartment>, options: Options)
  {
    exists i :: 0 <= i < |apartments| && SatisfiesCurrentFilter(apartments[i], options)
  }

  /**
   * `currentApartments` after the callback receives `delivered`, given
   * whether a priming run has already happened (`isSecondRunPlus`).
   */
  function NextApartments(isSecondRunPlus: bool, current: seq<Apartment>, delivered: seq<Apartment>): (r: seq<Apartment>)
    ensures isSecondRunPlus ==> |r| >= |current| && r[|r| - |current|..] == current
    ensures isSecondRunPlus ==> forall i :: 0 <= i < |r| - |current| ==> r[i].isNew
    ensures isSecondRunPlus ==> |r| == |current| + |delivered|
  {
    if !isSecondRunPlus then delivered
    else if delivered == [] then current
    else StampAll(delivered) + current
  }

  /** The count the callback pushes as a notification, if it pushes one. */
  function PushedNotification(isSecondRunPlus: bool, delivered: seq<Apartment>, options: Options): (r: Option<nat>)
    ensures r.Some? ==> isSecondRunPlus && delivered != [] && r.value == |delivered|
  {
    var newApartments := StampAll(delivered);
    if isSecondRunPlus && delivered != [] && AnySatisfies(newApartments, options)
    then Some(|newApartments|)
    else None
  }

  // ---- Properties of the display filter ----

  /** Filtering the displayed list again changes nothing. */
  lemma DisplayFilterIdempotent(apartments: seq<Apartment>, options: Options)
    ensures DisplayFilter(DisplayFilter(apartments, options), options) == DisplayFilter(apartments, options)
  {
    FilterIdempotent(apartments, a => SatisfiesCurrentFilter(a, options));
  }

  /** The display filter keeps the listings of its input in order and multiplicity. */
  lemma DisplayFilterShape(apartments: seq<Apartment>, options: Options, a: Apartment)
    ensures IsSubsequence(DisplayFilter(apartments, options), apartments)
    ensures multiset(DisplayFilter(apartments, options))[a] ==
            if SatisfiesCurrentFilter(a, options) then multiset(apartments)[a] else 0
  {
    FilterIsSubsequence(apartments, x => SatisfiesCurrentFilter(x, options));
    FilterMultiplicity(apartments, x => SatisfiesCurrentFilter(x, options), a);
  }

  /**
   * The display filter's expression and `apartmentSatisfyCurrentFilter` are
   * textually the same three comparisons, merged here into the one predicate
   * `SatisfiesCurrentFilter`. So the notification test on a list holds iff the
   * same list, filtered for display, is non-empty.
   */
  lemma DisplayFilterIsCurrentFilter(apartments: seq<Apartment>, options: Options)
    ensures AnySatisfies(apartments, options) <==> DisplayFilter(apartments, options) != []
  {
    FilterEmptyIff(apartments, a => SatisfiesCurrentFilter(a, options));
  }

  // ---- Properties of the callback ----

  /** A priming run takes the delivered list as it is. */
  lemma PrimingRun(current: seq<Apartment>, delivered: seq<Apartment>, options: Options)
    ensures NextApartments(false, current, delivered) == delivered
    ensures PushedNotification(false, delivered, options) == None
  {
  }

  /**
   * A later run with listings puts a copy of each delivered listing, marked
   * new and otherwise unchanged but for its index, in front of the old list.
   */
  lemma LaterRun(current: seq<Apartment>, delivered: seq<Apartment>)
    requires delivered != []
    ensures var r := NextApartments(true, current, delivered);
      && |r| == |delivered| + |current|
      && r[|delivered|..] == current
      && forall i :: 0 <= i < |delivered| ==>
           r[i].isNew && r[i].index == DefaultIndex && r[i].link == delivered[i].link &&
           r[i].rooms == delivered[i].rooms && r[i].area == delivered[i].area && r[i].rent == delivered[i].rent
  {
  }

  /** A later run with nothing delivered leaves the list alone and notifies nobody. */
  lemma EmptyLaterRun(current: seq<Apartment>, options: Options)
    ensures NextApartments(true, current, []) == current
    ensures PushedNotification(true, [], options) == None
  {
  }

  /**
   * A notification is pushed iff a later run delivers listings of which at
   * least one passes the current filter; its count is all delivered listings.
   */
  lemma NotificationIff(isSecondRunPlus: bool, delivered: seq<Apartment>, options: Options)
    ensures PushedNotification(isSecondRunPlus, delivered, options).Some? <==>
            isSecondRunPlus && delivered != [] && AnySatisfies(delivered, options)
    ensures PushedNotification(isSecondRunPlus, delivered, options).Some? ==>
            PushedNotification(isSecondRunPlus, delivered, options).value == |delivered|
  {
    var stamped := StampAll(delivered);
    if AnySatisfies(delivered, options) {
      var i :| 0 <= i < |delivered| && SatisfiesCurrentFilter(delivered[i], options);
      assert SatisfiesCurrentFilter(stamped[i], options);
    }
    if AnySatisfies(stamped, options) {
      var i :| 0 <= i < |stamped| && SatisfiesCurrentFilter(stamped[i], options);
      assert SatisfiesCurrentFilter(delivered[i], options);
    }
  }

  /**
   * The first cycle against a fresh baseline delivers the whole filtered
   * batch, indexed 0..n-1, and the priming run shows it without marking it new.
   */
  lemma FirstCycleAfterStart(fetched: seq<seq<Apartment>>, required: Apartment, current: seq<Apartment>)
    ensures var delivered := Indexed(ComparePreviousApartments(Batch(fetched, required), []));
      && delivered == Indexed(Batch(fetched, required))
      && NextApartments(false, current, delivered) == delivered
  {
    DiffAgainstEmpty(Batch(fetched, required));
  }

  /**
   * A baseline holding listing "A", a landlord delivering "A" and "B": the
   * manager delivers only "B", indexed 0, and the later run shows the new
   * copy of "B" in front of the old list.
   */
  lemma OneNewListing(a: Apartment, b: Apartment, current: seq<Apartment>)
    requires a.link == "A" && b.link == "B"
    requires a.rooms == b.rooms == 3 && a.area == b.area == 60
    ensures var required := Apartment("", 2, 50, 0, false, 0);
      var delivered := Indexed(ComparePreviousApartments(Batch([[a, b]], required), [a]));
      && delivered == [b.(index := 0)]
      && NextApartments(true, current, delivered) == [Stamp(b)] + current
  {
    var required := Apartment("", 2, 50, 0, false, 0);
    var batch := Batch([[a, b]], required);
    assert [[a, b]][..0] == [];
    assert [a, b][1..] == [b];
    assert [b][1..] == [];
    assert FilterRequired([a, b], required) == [a, b] by {
      FilterKeepsAll([a, b], x => MeetsRequired(x, required));
    }
    assert batch == Batch([], required) + FilterRequired([a, b], required);
    assert !HasLink([a], b.link);
    assert ComparePreviousApartments(batch, [a]) == [b];
  }

  /**
   * The engine state of the view controller. `timerScheduled` stands for a
   * non-nil `timer`; `landlordsManager` is null when the manager has been
   * dropped.
   */
  class ViewController {
    var options: Options
    var currentApartments: seq<Apartment>
    var apartmentsDataSource: seq<Apartment>
    var landlordsManager: LandlordsManager?
    var isSecondRunPlus: bool
    var timerScheduled: bool

    constructor (options: Options)
      ensures this.options == options
      ensures currentApartments == [] && apartmentsDataSource == []
      ensures landlordsManager == null && !isSecondRunPlus && !timerScheduled
    {
      this.options := options;
      currentApartments := [];
      apartmentsDataSource := [];
      landlordsManager := null;
      isSecondRunPlus := false;
      timerScheduled := false;
    }

    /** The user changes the criteria; the displayed list is recomputed. */
    method SetOptions(newOptions: Options)
      modifies this
      ensures options == newOptions
      ensures apartmentsDataSource == DisplayFilter(currentApartments, newOptions)
      ensures currentApartments == old(currentApartments) && landlordsManager == old(landlordsManager)
      ensures isSecondRunPlus == old(isSecondRunPlus) && timerScheduled == old(timerScheduled)
    {
      options := newOptions;
      apartmentsDataSource := DisplayFilter(currentApartments, options);
    }

    /**
     * Keeps the existing manager (and so its baseline), or creates one with
     * an empty baseline, and schedules the timer. The immediate first fire is
     * the caller's first `Tick`.
     */
    method StartEngine(requiredApartment: Apartment)
      modifies this
      ensures old(landlordsManager) != null ==> landlordsManager == old(landlordsManager)
      ensures old(landlordsManager) == null ==>
        && landlordsManager != null && fresh(landlordsManager)
        && landlordsManager.requiredApartment == requiredApartment
        && landlordsManager.previousApartments == []
      ensures timerScheduled
      ensures options == old(options) && currentApartments == old(currentApartments)
      ensures apartmentsDataSource == old(apartmentsDataSource) && isSecondRunPlus == old(isSecondRunPlus)
    {
      if landlordsManager == null {
        landlordsManager := new LandlordsManager(requiredApartment);
      }
      timerScheduled := true;
    }

    /**
     * One timer fire whose fetch completes with `fetched` (one list per
     * landlord). Returns what the manager delivered and the notification count
     * pushed, if any.
     */
    method Tick(fetched: seq<seq<Apartment>>) returns (delivered: seq<Apartment>, notification: Option<nat>)
      modifies this, landlordsManager
      ensures landlordsManager == old(landlordsManager)
      ensures options == old(options) && timerScheduled == old(timerScheduled)
      ensures old(landlordsManager) == null ==>
        && delivered == [] && notification == None
        && currentApartments == old(currentApartments)
        && apartmentsDataSource == old(apartmentsDataSource)
        && isSecondRunPlus == old(isSecondRunPlus)
      ensures old(landlordsManager) != null ==>
        && landlordsManager.requiredApartment == old(landlordsManager.requiredApartment)
        && landlordsManager.previousApartments == Batch(fetched, landlordsManager.requiredApartment)
        && delivered == Indexed(ComparePreviousApartments(landlordsManager.previousApartments,
                                                          old(landlordsManager.previousApartments)))
        && isSecondRunPlus
        && currentApartments == NextApartments(old(isSecondRunPlus), old(currentApartments), delivered)
        && notification == PushedNotification(old(isSecondRunPlus), delivered, options)
        && apartmentsDataSource ==
             if old(isSecondRunPlus) && delivered == [] then old(apartmentsDataSource)
             else DisplayFilter(currentApartments, options)
    {
      delivered, notification := [], None;
      if landlordsManager != null {
        delivered := landlordsManager.Start(fetched);
        if !isSecondRunPlus {
          currentApartments := delivered;
          apartmentsDataSource := DisplayFilter(currentApartments, options);
          isSecondRunPlus := true;
        } else if delivered != [] {
          var newApartments := StampAll(delivered);
          currentApartments := newApartments + currentApartments;
          apartmentsDataSource := DisplayFilter(currentApartments, options);
          if AnySatisfies(newApartments, options) {
            notification := Some(|newApartments|);
          }
        }
      }
    }

    /** Cancels the timer; flag, listings and manager are kept. */
    method PauseEngine()
      modifies this
      ensures !timerScheduled
      ensures isSecondRunPlus == old(isSecondRunPlus) && currentApartments == old(currentApartments)
      ensures apartmentsDataSource == old(apartmentsDataSource) && options == old(options)
      ensures landlordsManager == old(landlordsManager)
      ensures landlordsManager != null ==> unchanged(landlordsManager)
    {
      timerScheduled := false;
    }

    /**
     * With rows in the table, empties the displayed list, resets the priming
     * flag and drops the manager; with none, does nothing. `numberOfRows` is
     * the table view's row count.
     */
    method StopEngine(numberOfRows: nat)
      modifies this
      ensures numberOfRows == 0 ==> unchanged(this)
      ensures numberOfRows > 0 ==>
        && apartmentsDataSource == [] && !isSecondRunPlus && landlordsManager == null
        && currentApartments == old(currentApartments)
        && options == old(options) && timerScheduled == old(timerScheduled)
    {
      if numberOfRows == 0 {
        return;
      }
      apartmentsDataSource := [];
      isSecondRunPlus := false;
      landlordsManager := null;
    }
  }

  /**
   * Stop with rows in the table, start, and one cycle: a fresh priming run
   * that shows the whole filtered batch unmarked and notifies nobody.
   */
  method StopStartCycle(vc: ViewController, numberOfRows: nat, requiredApartment: Apartment, fetched: seq<seq<Apartment>>)
    returns (notification: Option<nat>)
    requires numberOfRows > 0
    modifies vc
    ensures vc.currentApartments == Indexed(Batch(fetched, requiredApartment))
    ensures vc.isSecondRunPlus && notification == None
  {
    vc.StopEngine(numberOfRows);
    vc.StartEngine(requiredApartment);
    var delivered;
    delivered, notification := vc.Tick(fetched);
    DiffAgainstEmpty(Batch(fetched, requiredApartment));
  }
}
