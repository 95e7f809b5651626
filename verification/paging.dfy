/**
 * The C_FindObjects pagination loop shared by GetNextEmptySlot and
 * listObjects: one first call, then further calls until a call fails or
 * returns an empty batch.
 */
module Paging {
  import opened Wrappers
  import opened Pkcs11

  /** The handles a pagination loop collected, and whether it stopped on a failed call. */
  datatype Paged = Paged(handles: seq<Handle>, failed: bool)

  ghost predicate NoFindFaults(faults: set<Fault>) {
    forall k: nat :: FindFault(k) !in faults
  }

  /** The loop from call number `call` on, with `rest` still in the search cursor. */
  function PageLoop(rest: seq<Handle>, call: nat, max: nat, faults: set<Fault>): (p: Paged)
    requires max > 0
    ensures p.handles <= rest
    ensures !p.failed ==> p.handles == rest
    decreases |rest|
  {
    if FindFault(call) in faults then Paged([], true)
    else if rest == [] then Paged([], false)
    else
      var n := Min(max, |rest|);
      var tail := PageLoop(rest[n..], call + 1, max, faults);
      assert rest == rest[..n] + rest[n..];
      Paged(rest[..n] + tail.handles, tail.failed)
  }

  /**
   * The whole search: the first C_FindObjects call may return an empty batch
   * without ending the search; the loop then asks once more.
   */
  function FindAll(matching: seq<Handle>, max: nat, faults: set<Fault>): (p: Paged)
    requires max > 0
    ensures p.handles <= matching
    ensures !p.failed ==> p.handles == matching
  {
    if FindFault(0) in faults then Paged([], true)
    else
      var n := Min(max, |matching|);
      var tail := PageLoop(matching[n..], 1, max, faults);
      assert matching == matching[..n] + matching[n..];
      Paged(matching[..n] + tail.handles, tail.failed)
  }

  /** How many C_FindObjects calls the loop makes, when none fails, with `remaining` handles left. */
  function LoopCalls(remaining: nat, max: nat): (c: nat)
    requires max > 0
    ensures c >= 1
  {
    if remaining == 0 then 1 else 1 + LoopCalls(remaining - Min(max, remaining), max)
  }

  /** How many C_FindObjects calls a whole search makes when none fails. */
  function SearchCalls(total: nat, max: nat): (c: nat)
    requires max > 0
    ensures c >= 2
  {
    1 + LoopCalls(total - Min(max, total), max)
  }

  ghost predicate SomeCallFails(faults: set<Fault>, from: nat, count: nat) {
    exists k: nat :: from <= k < from + count && FindFault(k) in faults
  }

  /** The loop stops on a failure exactly when one of the calls it makes is faulty. */
  lemma {:induction false} PageLoopFails(rest: seq<Handle>, call: nat, max: nat, faults: set<Fault>)
    requires max > 0
    ensures PageLoop(rest, call, max, faults).failed <==> SomeCallFails(faults, call, LoopCalls(|rest|, max))
    decreases |rest|
  {
    var c := LoopCalls(|rest|, max);
    if FindFault(call) in faults {
      assert call <= call < call + c;
    } else if rest != [] {
      var n := Min(max, |rest|);
      PageLoopFails(rest[n..], call + 1, max, faults);
      if SomeCallFails(faults, call, c) {
        var k: nat :| call <= k < call + c && FindFault(k) in faults;
        assert k != call;
      }
    }
  }

  /** A search fails exactly when one of the calls a fault-free search would make is faulty. */
  lemma SearchFails(matching: seq<Handle>, max: nat, faults: set<Fault>)
    requires max > 0
    ensures FindAll(matching, max, faults).failed <==> SomeCallFails(faults, 0, SearchCalls(|matching|, max))
  {
    var n := Min(max, |matching|);
    var c := SearchCalls(|matching|, max);
    PageLoopFails(matching[n..], 1, max, faults);
    if FindFault(0) in faults {
      assert 0 <= 0 < c;
    } else if SomeCallFails(faults, 0, c) {
      var k: nat :| 0 <= k < c && FindFault(k) in faults;
      assert k != 0;
    }
  }

  /** With no faulty C_FindObjects call, a search collects every matching handle. */
  lemma ReliableSearch(matching: seq<Handle>, max: nat, faults: set<Fault>)
    requires max > 0 && NoFindFaults(faults)
    ensures FindAll(matching, max, faults) == Paged(matching, false)
  {
    SearchFails(matching, max, faults);
  }
}
