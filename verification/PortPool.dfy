/** The pool of RTP ports (src/rtp/engine.rs:47-83). The random offset is a
    parameter. */
module PortPool {
  import opened Words

  function RoundUp(start: u16): u16 {
    if start % 2 != 0 then Min(start + 1, U16_MAX) else start
  }

  predicate ValidRange(start: u16, end: u16) {
    end > start && RoundUp(start) < end
  }

  /** The number of even ports from an even `start` to `end`. */
  function RangeSize(start: u16, end: u16): nat
    requires start < end
  {
    (end - start) / 2 + 1
  }

  /** The even ports of a range. */
  predicate Offered(start: u16, end: u16, port: u16) {
    port % 2 == 0 && RoundUp(start) <= port <= end
  }

  predicate Exhausted(held: set<u16>, start: u16, end: u16) {
    forall port: u16 :: Offered(start, end, port) ==> port in held
  }

  /** What an allocation may answer: for a valid range any offered port not held,
      and nothing exactly when all are held. */
  predicate Allocated(held: set<u16>, start: u16, end: u16, answer: Option<u16>) {
    match answer
    case Some(port) => ValidRange(start, end) && Offered(start, end, port) && port !in held
    case None => !ValidRange(start, end) || Exhausted(held, start, end)
  }

  /** A range is valid if and only if some even port lies in it before its end; what
      it offers is every even port in it, the end included. */
  lemma {:induction false} RangeIs(start: u16, end: u16)
    ensures ValidRange(start, end) <==> exists port: u16 :: EvenWithin(start, end, port) && port != end
    ensures forall port: u16 :: Offered(start, end, port) <==> EvenWithin(start, end, port)
  {
    if ValidRange(start, end) {
      assert EvenWithin(start, end, RoundUp(start)) && RoundUp(start) != end;
    }
  }

  predicate EvenWithin(start: u16, end: u16, port: u16) {
    port % 2 == 0 && start <= port <= end
  }

  /** Every offered port has one index in the scan. */
  lemma {:induction false} IndexOf(start: u16, end: u16, port: u16) returns (k: nat)
    requires ValidRange(start, end) && Offered(start, end, port)
    ensures k < RangeSize(RoundUp(start), end) && port == RoundUp(start) + k * 2
  {
    k := (port - RoundUp(start)) / 2;
  }

  /** Index `i` of a scan of `size` indices that begins at `offset`. */
  function Rotated(offset: nat, i: nat, size: nat): nat {
    if offset + i < size then offset + i else offset + i - size
  }

  lemma {:induction false} RotatedIsRemainder(offset: nat, i: nat, size: nat)
    requires offset < size && i < size
    ensures (offset + i) % size == Rotated(offset, i, size)
  {
    if offset + i >= size {
      Wraps(offset + i - size, size);
    }
  }

  lemma {:induction false} Wraps(x: nat, size: nat)
    requires x < size
    ensures (x + size) % size == x
  {
  }

  /** The rotated scan comes by every index. */
  lemma {:induction false} RotationReaches(offset: nat, size: nat, k: nat) returns (i: nat)
    requires k < size && offset < size
    ensures i < size && Rotated(offset, i, size) == k
  {
    i := if k >= offset then k - offset else k + size - offset;
  }

  ghost predicate AllHeld(held: set<u16>, from: u16, offset: nat, size: nat, n: nat) {
    forall i: nat :: i < n ==> from + Rotated(offset, i, size) * 2 in held
  }

  lemma {:induction false} NothingFree(held: set<u16>, start: u16, end: u16, offset: nat, size: nat)
    requires ValidRange(start, end) && size == RangeSize(RoundUp(start), end) && offset < size
    requires AllHeld(held, RoundUp(start), offset, size, size)
    ensures Exhausted(held, start, end)
  {
    forall port: u16 | Offered(start, end, port)
      ensures port in held
    {
      var k := IndexOf(start, end, port);
      var i := RotationReaches(offset, size, k);
    }
  }

  // ---------- runs ----------

  datatype Event =
    | Allocate(start: u16, end: u16, answer: Option<u16>)
    | Release(port: u16)

  function Step(held: set<u16>, e: Event): set<u16> {
    match e
    case Allocate(_, _, answer) => if answer.Some? then held + {answer.value} else held
    case Release(port) => held - {port}
  }

  function Held(events: seq<Event>): set<u16> {
    if events == [] then {} else Step(Held(events[..|events| - 1]), events[|events| - 1])
  }

  /** A run in which every allocation answered as it may. */
  ghost predicate Possible(events: seq<Event>) {
    forall i :: 0 <= i < |events| && events[i].Allocate? ==>
      Allocated(Held(events[..i]), events[i].start, events[i].end, events[i].answer)
  }

  predicate Gives(e: Event, port: u16) {
    e.Allocate? && e.answer == Some(port)
  }

  /** A port that is given out stays held until it is released. */
  lemma {:induction false} StaysHeld(events: seq<Event>, i: nat, port: u16)
    requires i < |events| && Gives(events[i], port) && forall k :: i < k < |events| ==> events[k] != Release(port)
    ensures port in Held(events)
  {
    if i == |events| - 1 {
    } else {
      StaysHeld(events[..|events| - 1], i, port);
    }
  }

  /** No port belongs to two holders: between two allocations that give the same
      port it is released. */
  lemma {:induction false} NeverGivenTwice(events: seq<Event>, i: nat, j: nat, port: u16)
    requires Possible(events) && i < j < |events| && Gives(events[i], port) && Gives(events[j], port)
    ensures exists k :: i < k < j && events[k] == Release(port)
  {
    if forall k :: i < k < j ==> events[k] != Release(port) {
      StaysHeld(events[..j], i, port);
    }
  }

  /** Every port held is even and was given out in its range. */
  lemma {:induction false} HeldWasGiven(events: seq<Event>, port: u16) returns (i: nat)
    requires Possible(events) && port in Held(events)
    ensures i < |events| && Gives(events[i], port) && Offered(events[i].start, events[i].end, port)
    ensures forall k :: i < k < |events| ==> events[k] != Release(port)
  {
    var before, e := events[..|events| - 1], events[|events| - 1];
    if Gives(e, port) {
      i := |events| - 1;
      assert Allocated(Held(events[..i]), e.start, e.end, e.answer);
    } else {
      assert Possible(before) by {
        assert forall k :: 0 <= k < |before| ==> before[..k] == events[..k];
      }
      i := HeldWasGiven(before, port);
    }
  }

  // ---------- the object ----------

  class Pool {
    var held: set<u16>

    constructor ()
      ensures held == {}
    {
      held := {};
    }

    /** The scan from `random` on, once around. */
    method AllocateRtpPort(start: u16, end: u16, random: nat) returns (answer: Option<u16>)
      modifies this
      ensures Allocated(old(held), start, end, answer)
      ensures held == Step(old(held), Allocate(start, end, answer))
    {
      hide Rotated, Exhausted;
      if end <= start || RoundUp(start) >= end {
        return None;
      }
      var from := RoundUp(start);
      var size := (end - from) / 2 + 1;
      var offset := random % size;
      var i := 0;
      while i < size
        invariant 0 <= i <= size && held == old(held)
        invariant AllHeld(held, from, offset, size, i)
      {
        RotatedIsRemainder(offset, i, size);
        var idx := (offset + i) % size;
        var port := from + idx * 2;
        if port !in held {
          held := held + {port};
          return Some(port);
        }
        i := i + 1;
      }
      NothingFree(held, start, end, offset, size);
      answer := None;
    }

    method ReleaseRtpPort(port: u16)
      modifies this
      ensures held == Step(old(held), Release(port))
    {
      held := held - {port};
    }
  }
}
