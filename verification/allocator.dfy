/**
 * The slot allocation policy of GetNextEmptySlot: every persistent object's
 * CKA_ID marks a slot as taken, and the first slot of the preference order
 * that is not taken is handed out.
 */
module SlotAllocator {
  import opened Wrappers
  import opened Pkcs11
  import opened Paging
  import opened Policy

  /** The search template of GetNextEmptySlot: every object with CKA_TOKEN set. */
  const PersistentObjects: Template := Template(Some(true), None, None, None)

  /** The slot one attribute marks as taken: the first byte of a CKA_ID below NumSlots. */
  function Mark(a: Attribute): set<nat> {
    if a.attrType == CkaId && |a.value| >= 1 && a.value[0] < NumSlots then {a.value[0]} else {}
  }

  /** The slots the attributes of one object mark, in the order they are read. */
  function MarkedBy(attrs: seq<Attribute>): set<nat> {
    if attrs == [] then {} else MarkedBy(attrs[..|attrs| - 1]) + Mark(attrs[|attrs| - 1])
  }

  /** The enumerated object `h` holds slot `s`: its CKA_ID can be read and starts with byte `s`. */
  predicate Occupies(st: TokenState, h: Handle, s: nat) {
    Readable(st, h) && |st.objects[h].id| >= 1 && st.objects[h].id[0] == s
  }

  /** The slot marked by reading the CKA_ID of object `h`, if the read succeeds. */
  function MarkOf(st: TokenState, h: Handle): set<nat> {
    if Readable(st, h) then Mark(Attribute(CkaId, st.objects[h].id)) else {}
  }

  /** Reading only CKA_ID returns one attribute, so the object marks what that attribute marks. */
  lemma MarkedByIdAttribute(o: TokenObject)
    ensures MarkedBy(Attributes(o, [CkaId])) == Mark(Attribute(CkaId, o.id))
  {
    var attrs := Attributes(o, [CkaId]);
    assert attrs == [Attribute(CkaId, o.id)];
    assert attrs[..0] == [];
  }

  /** The slots marked as taken by the enumerated objects `handles`. */
  function TakenSlots(st: TokenState, handles: seq<Handle>): (taken: set<nat>)
    ensures forall s :: s in taken ==> s < NumSlots
  {
    if handles == [] then {}
    else TakenSlots(st, handles[..|handles| - 1]) + MarkOf(st, handles[|handles| - 1])
  }

  /** A slot is taken exactly when one of the enumerated objects occupies it. */
  lemma {:induction false} TakenSlotsMembers(st: TokenState, handles: seq<Handle>)
    ensures forall s: nat :: s in TakenSlots(st, handles) <==>
      s < NumSlots && exists k :: 0 <= k < |handles| && Occupies(st, handles[k], s)
  {
    if handles != [] {
      var n := |handles| - 1;
      TakenSlotsMembers(st, handles[..n]);
      assert forall k :: 0 <= k < n ==> handles[..n][k] == handles[k];
      forall s: nat | s < NumSlots && (exists k :: 0 <= k < |handles| && Occupies(st, handles[k], s))
        ensures s in TakenSlots(st, handles)
      {
        var k :| 0 <= k < |handles| && Occupies(st, handles[k], s);
        if k < n {
          assert Occupies(st, handles[..n][k], s);
        }
      }
    }
  }

  /** The index in `prefs` of the first slot that is not taken, or |prefs| when all are. */
  function FirstFreeIndex(prefs: seq<nat>, taken: set<nat>): (i: nat)
    ensures i <= |prefs|
    ensures forall j :: 0 <= j < i ==> prefs[j] in taken
    ensures i < |prefs| ==> prefs[i] !in taken
  {
    if prefs == [] then 0
    else if prefs[0] !in taken then 0
    else 1 + FirstFreeIndex(prefs[1..], taken)
  }

  /** The objects GetNextEmptySlot enumerates, and whether the search failed. */
  function Enumerated(st: TokenState): Paged {
    FindAll(MatchingHandles(st.objects, PersistentObjects), NumSlots, st.faults)
  }

  /** GetNextEmptySlot's outcome on a token in state `st`. */
  function Allocate(st: TokenState): (r: Result<Bytes, Error>)
    ensures r.Ok? ==> |r.value| == 1 && r.value[0] < NumSlots
    ensures r.Err? ==> r.error in {FindInitFailed, FindFailed, FindFinalFailed, NoAvailableSlots}
  {
    if !FindInitAccepted(st) then Err(FindInitFailed)
    else if Enumerated(st).failed then Err(FindFailed)
    else if FindFinalFault in st.faults then Err(FindFinalFailed)
    else FirstFreeSlot(TakenSlots(st, Enumerated(st).handles))
  }

  /** The first slot in preference order that is not taken, as a one-byte slot id. */
  function FirstFreeSlot(taken: set<nat>): (r: Result<Bytes, Error>)
    ensures r.Ok? ==> |r.value| == 1 && r.value[0] in SlotIds && r.value[0] !in taken
    ensures r.Err? <==> forall j :: 0 <= j < |SlotIds| ==> SlotIds[j] in taken
    ensures r.Err? ==> r.error == NoAvailableSlots
  {
    var i := FirstFreeIndex(SlotIds, taken);
    if i == |SlotIds| then Err(NoAvailableSlots) else Ok([SlotIds[i]])
  }

  /** Slot `s` is held by a persistent object whose CKA_ID could be read. */
  ghost predicate Held(st: TokenState, s: nat) {
    exists h :: 0 <= h < |st.objects| && st.objects[h].onToken && Occupies(st, h, s)
  }

  /** An enumerated slot marked as taken is held. */
  lemma TakenSlotIsHeld(st: TokenState, hs: seq<Handle>, s: nat)
    requires hs == MatchingHandles(st.objects, PersistentObjects)
    requires s in TakenSlots(st, hs)
    ensures s < NumSlots && Held(st, s)
  {
    TakenSlotsMembers(st, hs);
    var k :| 0 <= k < |hs| && Occupies(st, hs[k], s);
    var h := hs[k];
    assert Matches(st.objects[h], PersistentObjects);
    assert 0 <= h < |st.objects| && st.objects[h].onToken && Occupies(st, h, s);
  }

  /** A held slot is marked as taken once every matching object is enumerated. */
  lemma HeldSlotIsTaken(st: TokenState, hs: seq<Handle>, s: nat)
    requires hs == MatchingHandles(st.objects, PersistentObjects)
    requires s < NumSlots && Held(st, s)
    ensures s in TakenSlots(st, hs)
  {
    var h :| 0 <= h < |st.objects| && st.objects[h].onToken && Occupies(st, h, s);
    assert Matches(st.objects[h], PersistentObjects);
    assert h in hs;
    var k :| 0 <= k < |hs| && hs[k] == h;
    TakenSlotsMembers(st, hs);
    assert Occupies(st, hs[k], s);
  }

  /** When the search succeeds, the slots marked as taken are exactly the held ones. */
  lemma TakenIsHeld(st: TokenState)
    requires !Enumerated(st).failed
    ensures forall s: nat :: s in TakenSlots(st, Enumerated(st).handles) <==> s < NumSlots && Held(st, s)
  {
    var hs := MatchingHandles(st.objects, PersistentObjects);
    assert Enumerated(st).handles == hs;
    forall s: nat ensures s in TakenSlots(st, hs) <==> s < NumSlots && Held(st, s) {
      if s in TakenSlots(st, hs) {
        TakenSlotIsHeld(st, hs, s);
      }
      if s < NumSlots && Held(st, s) {
        HeldSlotIsTaken(st, hs, s);
      }
    }
  }

  /** An allocated slot is a single byte naming one of the four slots. */
  lemma AllocatedSlotInRange(st: TokenState)
    requires Allocate(st).Ok?
    ensures |Allocate(st).value| == 1 && Allocate(st).value[0] in {0, 1, 2, 3}
  {
  }

  /** The free slot Allocate hands out, given that the search succeeded. */
  lemma AllocatedSlot(st: TokenState) returns (hs: seq<Handle>, i: nat)
    requires Allocate(st).Ok?
    ensures hs == MatchingHandles(st.objects, PersistentObjects) && Enumerated(st).handles == hs
    ensures i == FirstFreeIndex(SlotIds, TakenSlots(st, hs)) && i < |SlotIds|
    ensures Allocate(st).value == [SlotIds[i]]
  {
    hs := MatchingHandles(st.objects, PersistentObjects);
    i := FirstFreeIndex(SlotIds, TakenSlots(st, hs));
  }

  /** An allocated slot is not the first CKA_ID byte of any persistent object whose CKA_ID could be read. */
  lemma AllocatedSlotIsFree(st: TokenState)
    requires Allocate(st).Ok?
    ensures forall h :: 0 <= h < |st.objects| && st.objects[h].onToken && Readable(st, h) && |st.objects[h].id| >= 1
                        ==> st.objects[h].id[0] != Allocate(st).value[0]
  {
    var hs, i := AllocatedSlot(st);
    var s := SlotIds[i];
    forall h | 0 <= h < |st.objects| && st.objects[h].onToken && Readable(st, h) && |st.objects[h].id| >= 1
      ensures st.objects[h].id[0] != s
    {
      if st.objects[h].id[0] == s {
        assert Occupies(st, h, s);
        HeldSlotIsTaken(st, hs, s);
      }
    }
  }

  /** Every slot before the allocated one in the order 2, 1, 3, 0 is held. */
  lemma AllocationFollowsPreference(st: TokenState)
    requires Allocate(st).Ok?
    ensures exists i :: 0 <= i < |SlotIds| && SlotIds[i] == Allocate(st).value[0]
                        && forall j :: 0 <= j < i ==> Held(st, SlotIds[j])
  {
    var hs, i := AllocatedSlot(st);
    forall j | 0 <= j < i ensures Held(st, SlotIds[j]) {
      TakenSlotIsHeld(st, hs, SlotIds[j]);
    }
  }

  /** The allocator runs out exactly when all four slots are held, if the token does not fail. */
  lemma NoSlotsOnlyWhenAllHeld(st: TokenState)
    requires FindInitAccepted(st) && NoFindFaults(st.faults) && FindFinalFault !in st.faults
    ensures Allocate(st).Err? <==> forall s: nat :: s < NumSlots ==> Held(st, s)
    ensures Allocate(st).Err? ==> Allocate(st).error == NoAvailableSlots
  {
    var hs := MatchingHandles(st.objects, PersistentObjects);
    ReliableSearch(hs, NumSlots, st.faults);
    assert Enumerated(st) == Paged(hs, false);
    var taken := TakenSlots(st, hs);
    var i := FirstFreeIndex(SlotIds, taken);
    if forall s: nat :: s < NumSlots ==> Held(st, s) {
      forall j | 0 <= j < |SlotIds| ensures SlotIds[j] in taken {
        HeldSlotIsTaken(st, hs, SlotIds[j]);
      }
      assert i == |SlotIds|;
    } else {
      var s: nat :| s < NumSlots && !Held(st, s);
      if i == |SlotIds| {
        assert s == SlotIds[0] || s == SlotIds[1] || s == SlotIds[2] || s == SlotIds[3];
        var j :| 0 <= j < |SlotIds| && SlotIds[j] == s;
        TakenSlotIsHeld(st, hs, s);
      }
    }
  }

  /**
   * Without token failures the allocator hands out 2, 1, 3 and 0 in that
   * order of preference: the first slot no readable stored object holds.
   */
  lemma PreferenceOrder(st: TokenState)
    requires FindInitAccepted(st) && NoFindFaults(st.faults) && FindFinalFault !in st.faults
    ensures !Held(st, 2) ==> Allocate(st) == Ok([2])
    ensures Held(st, 2) && !Held(st, 1) ==> Allocate(st) == Ok([1])
    ensures Held(st, 2) && Held(st, 1) && !Held(st, 3) ==> Allocate(st) == Ok([3])
    ensures Held(st, 2) && Held(st, 1) && Held(st, 3) && !Held(st, 0) ==> Allocate(st) == Ok([0])
  {
    var hs := MatchingHandles(st.objects, PersistentObjects);
    ReliableSearch(hs, NumSlots, st.faults);
    assert Enumerated(st) == Paged(hs, false);
    var taken := TakenSlots(st, hs);
    forall s: nat | s < NumSlots ensures s in taken <==> Held(st, s) {
      if s in taken {
        TakenSlotIsHeld(st, hs, s);
      }
      if Held(st, s) {
        HeldSlotIsTaken(st, hs, s);
      }
    }
    var i := FirstFreeIndex(SlotIds, taken);
    assert SlotIds[0] == 2 && SlotIds[1] == 1 && SlotIds[2] == 3 && SlotIds[3] == 0;
    assert i < |SlotIds| ==> Allocate(st) == Ok([SlotIds[i]]);
    if i > 0 { assert 2 in taken; }
    if i > 1 { assert 1 in taken; }
    if i > 2 { assert 3 in taken; }
  }

  /** A token without objects gets slot 2. */
  lemma EmptyTokenGetsSlot2(st: TokenState)
    requires st.objects == []
    requires FindInitAccepted(st) && NoFindFaults(st.faults) && FindFinalFault !in st.faults
    ensures Allocate(st) == Ok([2])
  {
    PreferenceOrder(st);
  }

  /** A failing C_FindObjects call during the search aborts allocation. */
  lemma FindFaultAbortsAllocation(st: TokenState, k: nat)
    requires FindInitAccepted(st)
    requires k < SearchCalls(|MatchingHandles(st.objects, PersistentObjects)|, NumSlots)
    requires FindFault(k) in st.faults
    ensures Allocate(st) == Err(FindFailed)
  {
    SearchFails(MatchingHandles(st.objects, PersistentObjects), NumSlots, st.faults);
  }
}
