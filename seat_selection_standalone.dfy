/** The seat-selection modal of the seat widget: the toggle rule that keeps at
    most one seat per (segment, passenger) slot, the id-to-service map the seat
    map reads, and the cursor over the (segment, passenger) permutations. */
module SeatSelectionStandalone {
  import opened Types

  /** The seat slot a seat service was picked for. */
  datatype ServiceInformation = ServiceInformation(segmentId: string, passengerId: string)

  /** A selected service, optionally tagged with the seat slot it occupies. */
  datatype SeatService = SeatService(
    id: string,
    quantity: int,
    serviceInformation: Option<ServiceInformation>)

  /** One (segment, passenger) pair needing a seat decision. `passengerIndex`
      mirrors the field destructured as `currentPassengerIndex`, which the
      source uses only to name the passenger on screen. */
  datatype Permutation = Permutation(segmentId: string, passengerId: string, passengerIndex: int)

  // ---------------------------------------------------------------------------
  // Toggle rule
  // ---------------------------------------------------------------------------

  /** The candidate toggles off (quantity 0) the same service id as `entry`. */
  predicate IsToggleOff(entry: SeatService, candidate: SeatService) {
    entry.id == candidate.id && candidate.quantity == 0
  }

  /** `entry` is tagged with the given slot. An untagged entry reads `undefined`
      through the optional chain, which never equals a segment or passenger id. */
  predicate OccupiesSlot(entry: SeatService, segmentId: string, passengerId: string) {
    && entry.serviceInformation.Some?
    && entry.serviceInformation.value.segmentId == segmentId
    && entry.serviceInformation.value.passengerId == passengerId
  }

  /** The exclusion scan keeps an entry exactly when neither drop rule applies. */
  predicate Keeps(entry: SeatService, candidate: SeatService, segmentId: string, passengerId: string) {
    !IsToggleOff(entry, candidate) && !OccupiesSlot(entry, segmentId, passengerId)
  }

  /** The entries of `s` that survive the exclusion scan, in their order in `s`. */
  function KeptEntries(s: seq<SeatService>, candidate: SeatService, segmentId: string, passengerId: string)
    : seq<SeatService>
  {
    if s == [] then []
    else
      var rest := KeptEntries(s[..|s| - 1], candidate, segmentId, passengerId);
      if Keeps(s[|s| - 1], candidate, segmentId, passengerId) then rest + [s[|s| - 1]] else rest
  }

  /** The selection list after toggling `candidate` in the given slot. */
  function Toggled(s: seq<SeatService>, candidate: SeatService, segmentId: string, passengerId: string)
    : seq<SeatService>
  {
    KeptEntries(s, candidate, segmentId, passengerId) + (if candidate.quantity > 0 then [candidate] else [])
  }

  /** The scan of `onSeatToggle`: a fresh list is built from the old one, which is left as it was. */
  method ToggleSeat(
    selectedServicesState: seq<SeatService>,
    seatServiceToToggle: SeatService,
    currentSegmentId: string,
    currentPassengerId: string)
    returns (newSeatServices: seq<SeatService>)
    ensures newSeatServices == Toggled(selectedServicesState, seatServiceToToggle, currentSegmentId, currentPassengerId)
  {
    newSeatServices := [];
    for i := 0 to |selectedServicesState|
      invariant newSeatServices
        == KeptEntries(selectedServicesState[..i], seatServiceToToggle, currentSegmentId, currentPassengerId)
    {
      var selectedServiceFromState := selectedServicesState[i];
      var hasClickedSeatToToggleOff :=
        selectedServiceFromState.id == seatServiceToToggle.id && seatServiceToToggle.quantity == 0;
      var isForTheSameSegmentAndPassenger :=
        && selectedServiceFromState.serviceInformation.Some?
        && selectedServiceFromState.serviceInformation.value.segmentId == currentSegmentId
        && selectedServiceFromState.serviceInformation.value.passengerId == currentPassengerId;
      assert selectedServicesState[..i + 1][..i] == selectedServicesState[..i];
      if !hasClickedSeatToToggleOff && !isForTheSameSegmentAndPassenger {
        newSeatServices := newSeatServices + [selectedServiceFromState];
      }
    }
    assert selectedServicesState[..|selectedServicesState|] == selectedServicesState;
    if seatServiceToToggle.quantity > 0 {
      newSeatServices := newSeatServices + [seatServiceToToggle];
    }
  }

  /** `a` is `b` with some elements deleted: the relative order is kept. */
  predicate IsSubsequence<T(==)>(a: seq<T>, b: seq<T>)
    decreases |b|
  {
    if b == [] then a == []
    else
      || IsSubsequence(a, b[..|b| - 1])
      || (a != [] && a[|a| - 1] == b[|b| - 1] && IsSubsequence(a[..|a| - 1], b[..|b| - 1]))
  }

  lemma KeptEntriesAppend(s: seq<SeatService>, x: SeatService, c: SeatService, seg: string, pax: string)
    ensures KeptEntries(s + [x], c, seg, pax)
         == KeptEntries(s, c, seg, pax) + (if Keeps(x, c, seg, pax) then [x] else [])
  {
    assert (s + [x])[..|s|] == s;
  }

  /** Every kept value keeps all its occurrences; every dropped value has none. */
  lemma {:induction false} KeptEntriesCount(s: seq<SeatService>, c: SeatService, seg: string, pax: string, e: SeatService)
    ensures multiset(KeptEntries(s, c, seg, pax))[e] == if Keeps(e, c, seg, pax) then multiset(s)[e] else 0
  {
    if s != [] {
      var init := s[..|s| - 1];
      KeptEntriesCount(init, c, seg, pax, e);
      assert s == init + [s[|s| - 1]];
    }
  }

  /** An entry survives the scan exactly when it was in the list and no drop rule applies. */
  lemma KeptEntriesMembers(s: seq<SeatService>, c: SeatService, seg: string, pax: string)
    ensures forall e :: e in KeptEntries(s, c, seg, pax) <==> e in s && Keeps(e, c, seg, pax)
  {
    forall e ensures e in KeptEntries(s, c, seg, pax) <==> e in s && Keeps(e, c, seg, pax) {
      KeptEntriesCount(s, c, seg, pax, e);
    }
  }

  /** The survivors keep their original relative order, and there are no more of them than before. */
  lemma {:induction false} KeptEntriesOrder(s: seq<SeatService>, c: SeatService, seg: string, pax: string)
    ensures IsSubsequence(KeptEntries(s, c, seg, pax), s)
    ensures |KeptEntries(s, c, seg, pax)| <= |s|
  {
    if s != [] {
      var init := s[..|s| - 1];
      KeptEntriesOrder(init, c, seg, pax);
      var rest := KeptEntries(init, c, seg, pax);
      if Keeps(s[|s| - 1], c, seg, pax) {
        assert (rest + [s[|s| - 1]])[..|rest|] == rest;
      }
    }
  }

  /** Toggling keeps exactly the entries no drop rule hits, in order, and then
      appends the candidate exactly when its quantity is positive. */
  lemma ToggledShape(s: seq<SeatService>, c: SeatService, seg: string, pax: string)
    ensures var r := Toggled(s, c, seg, pax);
      && IsSubsequence(KeptEntries(s, c, seg, pax), s)
      && (forall e :: e in KeptEntries(s, c, seg, pax) <==> e in s && Keeps(e, c, seg, pax))
      && (c.quantity > 0 ==> |r| == |KeptEntries(s, c, seg, pax)| + 1 && r[|r| - 1] == c)
      && (c.quantity <= 0 ==> r == KeptEntries(s, c, seg, pax))
      && |r| <= |s| + 1
  {
    KeptEntriesOrder(s, c, seg, pax);
    KeptEntriesMembers(s, c, seg, pax);
  }

  /** After a toggle no earlier entry is left in the current slot: the only
      entry that can occupy it is the appended candidate, at the end. */
  lemma ToggleClearsSlot(s: seq<SeatService>, c: SeatService, seg: string, pax: string)
    ensures var r := Toggled(s, c, seg, pax);
      forall i :: 0 <= i < |r| && OccupiesSlot(r[i], seg, pax) ==> i == |r| - 1 && r[i] == c && c.quantity > 0
  {
    var kept := KeptEntries(s, c, seg, pax);
    var r := Toggled(s, c, seg, pax);
    KeptEntriesMembers(s, c, seg, pax);
    forall i | 0 <= i < |kept|
      ensures !OccupiesSlot(r[i], seg, pax)
    {
      assert r[i] == kept[i] && kept[i] in kept;
    }
  }

  /** Toggling off (quantity 0) leaves no entry with the candidate's id. */
  lemma ToggleOffRemovesId(s: seq<SeatService>, c: SeatService, seg: string, pax: string)
    requires c.quantity == 0
    ensures forall e :: e in Toggled(s, c, seg, pax) ==> e.id != c.id
  {
    KeptEntriesMembers(s, c, seg, pax);
  }

  /** An untagged entry is never hit by the same-slot rule: unless it is being
      toggled off, every occurrence of it survives. */
  lemma UntaggedEntriesSurvive(s: seq<SeatService>, c: SeatService, seg: string, pax: string, e: SeatService)
    requires e.serviceInformation.None? && !IsToggleOff(e, c)
    ensures multiset(KeptEntries(s, c, seg, pax))[e] == multiset(s)[e]
  {
    KeptEntriesCount(s, c, seg, pax, e);
  }

  /** No two tagged entries share a slot. */
  predicate AtMostOnePerSlot(s: seq<SeatService>) {
    forall i, j :: 0 <= i < j < |s| && s[i].serviceInformation.Some? ==> s[i].serviceInformation != s[j].serviceInformation
  }

  lemma {:induction false} KeptEntriesKeepSlotsUnique(s: seq<SeatService>, c: SeatService, seg: string, pax: string)
    requires AtMostOnePerSlot(s)
    ensures AtMostOnePerSlot(KeptEntries(s, c, seg, pax))
  {
    if s != [] {
      var init := s[..|s| - 1];
      var last := s[|s| - 1];
      assert AtMostOnePerSlot(init) by {
        forall i, j | 0 <= i < j < |init| && init[i].serviceInformation.Some?
          ensures init[i].serviceInformation != init[j].serviceInformation
        {
          assert init[i] == s[i] && init[j] == s[j];
        }
      }
      KeptEntriesKeepSlotsUnique(init, c, seg, pax);
      var rest := KeptEntries(init, c, seg, pax);
      if Keeps(last, c, seg, pax) {
        KeptEntriesMembers(init, c, seg, pax);
        var r := rest + [last];
        forall i, j | 0 <= i < j < |r| && r[i].serviceInformation.Some?
          ensures r[i].serviceInformation != r[j].serviceInformation
        {
          if j == |r| - 1 {
            assert r[i] == rest[i] && rest[i] in init;
            var k :| 0 <= k < |init| && init[k] == rest[i];
            assert s[k] == r[i] && s[|s| - 1] == r[j];
          } else {
            assert r[i] == rest[i] && r[j] == rest[j];
          }
        }
      }
    }
  }

  /** The slot invariant is preserved by a toggle, provided the candidate is
      untagged or tagged with the slot being toggled. */
  lemma ToggleKeepsSlotsUnique(s: seq<SeatService>, c: SeatService, seg: string, pax: string)
    requires AtMostOnePerSlot(s)
    requires c.serviceInformation.Some? ==> c.serviceInformation.value == ServiceInformation(seg, pax)
    ensures AtMostOnePerSlot(Toggled(s, c, seg, pax))
  {
    KeptEntriesKeepSlotsUnique(s, c, seg, pax);
    var kept := KeptEntries(s, c, seg, pax);
    if c.quantity > 0 {
      KeptEntriesMembers(s, c, seg, pax);
      var r := kept + [c];
      forall i, j | 0 <= i < j < |r| && r[i].serviceInformation.Some?
        ensures r[i].serviceInformation != r[j].serviceInformation
      {
        if j == |r| - 1 {
          assert r[i] == kept[i] && kept[i] in kept;
        } else {
          assert r[i] == kept[i] && r[j] == kept[j];
        }
      }
    }
  }

  lemma {:induction false} KeptEntriesCompose(s: seq<SeatService>, c1: SeatService, c2: SeatService, seg: string, pax: string)
    requires forall e :: Keeps(e, c2, seg, pax) ==> Keeps(e, c1, seg, pax)
    ensures KeptEntries(KeptEntries(s, c1, seg, pax), c2, seg, pax) == KeptEntries(s, c2, seg, pax)
  {
    if s != [] {
      var init := s[..|s| - 1];
      var last := s[|s| - 1];
      KeptEntriesCompose(init, c1, c2, seg, pax);
      if Keeps(last, c1, seg, pax) {
        KeptEntriesAppend(KeptEntries(init, c1, seg, pax), last, c2, seg, pax);
      }
    }
  }

  /** Selecting a seat and then toggling the same service off leaves the list
      with every entry of that id and of that slot removed. */
  lemma ToggleOnThenOff(s: seq<SeatService>, c: SeatService, seg: string, pax: string)
    requires c.quantity > 0
    ensures Toggled(Toggled(s, c, seg, pax), c.(quantity := 0), seg, pax) == KeptEntries(s, c.(quantity := 0), seg, pax)
  {
    var off := c.(quantity := 0);
    KeptEntriesAppend(KeptEntries(s, c, seg, pax), c, off, seg, pax);
    KeptEntriesCompose(s, c, off, seg, pax);
  }

  lemma {:induction false} KeptEntriesAll(s: seq<SeatService>, c: SeatService, seg: string, pax: string)
    requires forall e :: e in s ==> Keeps(e, c, seg, pax)
    ensures KeptEntries(s, c, seg, pax) == s
  {
    if s != [] {
      var init := s[..|s| - 1];
      KeptEntriesAll(init, c, seg, pax);
      assert init + [s[|s| - 1]] == s;
    }
  }

  /** Selecting a seat and toggling it off again gives back the list unchanged
      exactly when no entry of the list has that id or sits in that slot. */
  lemma ToggleOnThenOffRestores(s: seq<SeatService>, c: SeatService, seg: string, pax: string)
    requires c.quantity > 0
    ensures Toggled(Toggled(s, c, seg, pax), c.(quantity := 0), seg, pax) == s
            <==> forall e :: e in s ==> e.id != c.id && !OccupiesSlot(e, seg, pax)
  {
    var off := c.(quantity := 0);
    ToggleOnThenOff(s, c, seg, pax);
    if forall e :: e in s ==> e.id != c.id && !OccupiesSlot(e, seg, pax) {
      KeptEntriesAll(s, off, seg, pax);
    } else {
      var e :| e in s && !(e.id != c.id && !OccupiesSlot(e, seg, pax));
      KeptEntriesCount(s, off, seg, pax, e);
      assert multiset(KeptEntries(s, off, seg, pax))[e] == 0 < multiset(s)[e];
    }
  }

  // ---------------------------------------------------------------------------
  // The id-to-service map
  // ---------------------------------------------------------------------------

  /** The left fold `reduce((all, service) => ({ ...all, [service.id]: service }), {})`:
      its keys are the ids of the list and each id maps to an entry carrying it. */
  function ServicesById(s: seq<SeatService>): (m: map<string, SeatService>)
    ensures m.Keys == set e | e in s :: e.id
    ensures forall k :: k in m ==> m[k].id == k && m[k] in s
  {
    if s == [] then map[]
    else
      var init := s[..|s| - 1];
      var last := s[|s| - 1];
      assert s == init + [last];
      ServicesById(init)[last.id := last]
  }

  /** Each id maps to the last entry of the list that carries it. */
  lemma {:induction false} ServicesByIdPicksLast(s: seq<SeatService>, i: int)
    requires 0 <= i < |s|
    requires forall j :: i < j < |s| ==> s[j].id != s[i].id
    ensures s[i].id in ServicesById(s) && ServicesById(s)[s[i].id] == s[i]
  {
    if i < |s| - 1 {
      var init := s[..|s| - 1];
      assert init[i] == s[i];
      ServicesByIdPicksLast(init, i);
    }
  }

  /** After a toggle the map shows the candidate under its id when it was
      selected, and nothing under that id when it was toggled off. */
  lemma ToggledServicesById(s: seq<SeatService>, c: SeatService, seg: string, pax: string)
    ensures c.quantity > 0 ==> c.id in ServicesById(Toggled(s, c, seg, pax)) && ServicesById(Toggled(s, c, seg, pax))[c.id] == c
    ensures c.quantity == 0 ==> c.id !in ServicesById(Toggled(s, c, seg, pax))
  {
    var r := Toggled(s, c, seg, pax);
    if c.quantity > 0 {
      ServicesByIdPicksLast(r, |r| - 1);
    } else if c.quantity == 0 {
      ToggleOffRemovesId(s, c, seg, pax);
    }
  }

  // ---------------------------------------------------------------------------
  // Rendering stages and the permutation cursor
  // ---------------------------------------------------------------------------

  /** What the component renders before it reaches the seat map. */
  datatype RenderStage = LoadingPlaceholder | NothingRendered | SeatSelectionRendered

  function StageFor(isLoading: bool, hasOffer: bool, hasSeatMaps: bool): (r: RenderStage)
    ensures isLoading <==> r == LoadingPlaceholder
    ensures r == SeatSelectionRendered <==> !isLoading && hasOffer && hasSeatMaps
  {
    if isLoading then LoadingPlaceholder
    else if !hasOffer || !hasSeatMaps then NothingRendered
    else SeatSelectionRendered
  }

  datatype Navigation = NextSegment | PreviousSegment

  /** The footer buttons: next adds one to the cursor, previous subtracts one. */
  function Step(index: int, move: Navigation): int {
    match move
    case NextSegment => index + 1
    case PreviousSegment => index - 1
  }

  /** The footer's `isFirstSegment` and `isLastSegment` flags for a cursor over `count` permutations. */
  predicate IsFirstIndex(index: int) {
    index == 0
  }

  predicate IsLastIndex(index: int, count: nat) {
    index + 1 == count
  }

  /** The footer offers next except on the last permutation and previous except on the first. */
  predicate Enabled(index: int, count: nat, move: Navigation) {
    match move
    case NextSegment => !IsLastIndex(index, count)
    case PreviousSegment => !IsFirstIndex(index)
  }

  function Walk(index: int, moves: seq<Navigation>): int
    decreases |moves|
  {
    if moves == [] then index else Walk(Step(index, moves[0]), moves[1..])
  }

  /** Every move of the walk was offered by the footer when it was taken. */
  predicate GatedWalk(index: int, count: nat, moves: seq<Navigation>)
    decreases |moves|
  {
    moves == [] || (Enabled(index, count, moves[0]) && GatedWalk(Step(index, moves[0]), count, moves[1..]))
  }

  /** Navigating only through offered buttons keeps the cursor on a permutation. */
  lemma {:induction false} GatedWalkStaysInRange(index: int, count: nat, moves: seq<Navigation>)
    requires 0 <= index < count
    requires GatedWalk(index, count, moves)
    ensures 0 <= Walk(index, moves) < count
    decreases |moves|
  {
    if moves != [] {
      GatedWalkStaysInRange(Step(index, moves[0]), count, moves[1..]);
    }
  }

  /** The state of a mounted seat-selection modal: the cursor over the
      permutations and the list of selected seat services. */
  class SeatSelectionState {
    const segmentAndPassengerPermutations: seq<Permutation>
    var currentPermutationIndex: int
    var selectedServicesState: seq<SeatService>

    constructor (selectedServices: seq<SeatService>, permutations: seq<Permutation>)
      ensures segmentAndPassengerPermutations == permutations
      ensures currentPermutationIndex == 0 && selectedServicesState == selectedServices
      ensures IsFirstSegment()
    {
      segmentAndPassengerPermutations := permutations;
      currentPermutationIndex := 0;
      selectedServicesState := selectedServices;
    }

    /** On the first permutation, the one destructured is the list's first. */
    predicate IsFirstSegment(): (first: bool)
      reads this
      ensures first && |segmentAndPassengerPermutations| > 0
              ==> CurrentPermutation() == Some(segmentAndPassengerPermutations[0])
    {
      IsFirstIndex(currentPermutationIndex)
    }

    /** On the last permutation, the one destructured is the list's last. */
    predicate IsLastSegment(): (last: bool)
      reads this
      ensures last && |segmentAndPassengerPermutations| > 0
              ==> CurrentPermutation()
                  == Some(segmentAndPassengerPermutations[|segmentAndPassengerPermutations| - 1])
    {
      IsLastIndex(currentPermutationIndex, |segmentAndPassengerPermutations|)
    }

    predicate OnPermutation()
      reads this
    {
      0 <= currentPermutationIndex < |segmentAndPassengerPermutations|
    }

    /** The permutation under the cursor; destructuring a missing one throws. */
    function CurrentPermutation(): (p: Option<Permutation>)
      reads this
      ensures p.Some? <==> OnPermutation()
      ensures p.Some? ==> p.value == segmentAndPassengerPermutations[currentPermutationIndex]
    {
      if OnPermutation() then Some(segmentAndPassengerPermutations[currentPermutationIndex]) else None
    }

    /** The map the seat map reads to show which seats are taken: one key per
        selected id, each holding a selected service with that id. */
    function SelectedServicesMap(): (m: map<string, SeatService>)
      reads this
      ensures m.Keys == set e | e in selectedServicesState :: e.id
      ensures forall k :: k in m ==> m[k].id == k && m[k] in selectedServicesState
    {
      ServicesById(selectedServicesState)
    }

    method OnNextSegmentButtonClicked()
      modifies this`currentPermutationIndex
      ensures currentPermutationIndex == Step(old(currentPermutationIndex), NextSegment)
      ensures old(OnPermutation() && !IsLastSegment()) ==> OnPermutation()
    {
      currentPermutationIndex := currentPermutationIndex + 1;
    }

    method OnPreviousSegmentButtonClicked()
      modifies this`currentPermutationIndex
      ensures currentPermutationIndex == Step(old(currentPermutationIndex), PreviousSegment)
      ensures old(OnPermutation() && !IsFirstSegment()) ==> OnPermutation()
    {
      currentPermutationIndex := currentPermutationIndex - 1;
    }

    /** The handler exists only once the render has read the current permutation. */
    method OnSeatToggle(seatServiceToToggle: SeatService)
      requires OnPermutation()
      modifies this`selectedServicesState
      ensures CurrentPermutation().Some?
      ensures selectedServicesState == Toggled(
        old(selectedServicesState),
        seatServiceToToggle,
        CurrentPermutation().value.segmentId,
        CurrentPermutation().value.passengerId)
    {
      var current := segmentAndPassengerPermutations[currentPermutationIndex];
      selectedServicesState := ToggleSeat(selectedServicesState, seatServiceToToggle, current.segmentId, current.passengerId);
    }

    /** Closing the modal hands the current selection to `onComplete`. */
    method OnClose() returns (completed: seq<SeatService>)
      ensures completed == selectedServicesState
    {
      completed := selectedServicesState;
    }
  }
}
