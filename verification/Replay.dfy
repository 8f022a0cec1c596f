/** The replay window of the netcode layer (renetcode2/src/replay_protection.rs). */
module ReplayWindow {
  import opened Base

  const SIZE: nat := 256
  const EMPTY: nat := U64 - 1

  /** The largest sequence accepted, and a ring of sequences accepted. */
  datatype Window = Window(mostRecent: nat, slots: seq<nat>)

  predicate WellFormed(w: Window) {
    |w.slots| == SIZE && w.mostRecent < U64
  }

  function New(): (w: Window)
    ensures WellFormed(w)
  {
    Window(0, seq(SIZE, _ => EMPTY))
  }

  /** The sum is taken in 64 bits and wraps around. */
  predicate AlreadyReceived(w: Window, sequence: nat)
    requires WellFormed(w)
  {
    || (sequence + SIZE) % U64 <= w.mostRecent
    || (w.slots[sequence % SIZE] != EMPTY && w.slots[sequence % SIZE] >= sequence)
  }

  function Advance(w: Window, sequence: nat): (w': Window)
    requires WellFormed(w) && sequence < U64
    ensures WellFormed(w')
  {
    Window(if sequence > w.mostRecent then sequence else w.mostRecent, w.slots[sequence % SIZE := sequence])
  }

  // ----- The window and the set of all sequences accepted

  /** A sequence whose sum with the window size fits 64 bits. */
  predicate Plain(sequence: nat) {
    sequence + SIZE < U64
  }

  /** Each slot holds the largest sequence accepted among those that share it. */
  ghost predicate Tracks(w: Window, accepted: set<nat>) {
    && WellFormed(w)
    && (forall s :: s in accepted ==> Plain(s) && s <= w.mostRecent && s <= w.slots[s % SIZE] != EMPTY)
    && (forall i :: 0 <= i < SIZE && w.slots[i] != EMPTY ==> w.slots[i] in accepted && w.slots[i] % SIZE == i)
    && (w.mostRecent == 0 || w.mostRecent in accepted)
  }

  lemma SameSlot(a: nat, b: nat)
    requires a % SIZE == b % SIZE && b <= a < b + SIZE
    ensures a == b
  {
  }

  /**
   * The window answers as the full set would, for every sequence but those at the end of the
   * 64-bit range whose sum wraps round to a number not above the most recent one.
   */
  lemma Exact(w: Window, accepted: set<nat>, s: nat)
    requires Tracks(w, accepted) && s < U64
    ensures (AlreadyReceived(w, s) <==> s + SIZE <= w.mostRecent || s in accepted) <==>
              (Plain(s) || s + SIZE - U64 > w.mostRecent)
  {
    var slot := w.slots[s % SIZE];
    if Plain(s) {
      assert (s + SIZE) % U64 == s + SIZE;
      if slot != EMPTY && slot >= s && s + SIZE > w.mostRecent {
        SameSlot(slot, s);
      }
    } else {
      Wraps(s);
    }
  }

  lemma Wraps(s: nat)
    requires !Plain(s) && s < U64
    ensures (s + SIZE) % U64 == s + SIZE - U64
  {
  }

  /** A new window already refuses the first of the sequences that wrap. */
  lemma WrapsToRefusal()
    ensures AlreadyReceived(New(), U64 - SIZE)
  {
  }

  lemma NewTracks()
    ensures Tracks(New(), {})
  {
  }

  /** Accepting a sequence that the window has not seen keeps it in step with the set. */
  lemma AdvanceTracks(w: Window, accepted: set<nat>, s: nat)
    requires Tracks(w, accepted) && Plain(s) && !AlreadyReceived(w, s)
    ensures Tracks(Advance(w, s), accepted + {s})
  {
  }

  // ----- Runs

  /** A packet arrives with its sequence; only an authentic one moves the window. */
  datatype Arrival = Arrival(sequence: nat, authentic: bool)

  ghost predicate AllPlain(arrivals: seq<Arrival>) {
    forall a :: a in arrivals ==> Plain(a.sequence)
  }

  ghost function Run(arrivals: seq<Arrival>): (r: (Window, seq<nat>))
    requires AllPlain(arrivals)
    ensures WellFormed(r.0)
  {
    if arrivals == [] then (New(), [])
    else
      var (w, accepted) := Run(arrivals[..|arrivals| - 1]);
      var a := arrivals[|arrivals| - 1];
      assert Plain(a.sequence);
      if AlreadyReceived(w, a.sequence) || !a.authentic then (w, accepted)
      else (Advance(w, a.sequence), accepted + [a.sequence])
  }

  ghost function AsSet(accepted: seq<nat>): set<nat> {
    set s | s in accepted
  }

  ghost predicate Once(accepted: seq<nat>) {
    forall i, j :: 0 <= i < j < |accepted| ==> accepted[i] != accepted[j]
  }

  lemma Accept(w: Window, accepted: seq<nat>, s: nat)
    requires Once(accepted) && Tracks(w, AsSet(accepted)) && Plain(s) && !AlreadyReceived(w, s)
    ensures Once(accepted + [s]) && Tracks(Advance(w, s), AsSet(accepted + [s]))
  {
    hide Tracks;
    hide AlreadyReceived;
    hide Advance;
    var all := AsSet(accepted);
    Exact(w, all, s);
    AdvanceTracks(w, all, s);
    assert AsSet(accepted + [s]) == all + {s};
  }

  /** Over every run each sequence is accepted at most once, and the window stays in step. */
  lemma {:induction false} RunTracks(arrivals: seq<Arrival>)
    requires AllPlain(arrivals)
    ensures Once(Run(arrivals).1)
    ensures Tracks(Run(arrivals).0, AsSet(Run(arrivals).1))
  {
    hide Tracks;
    hide AlreadyReceived;
    hide Advance;
    hide Once;
    if arrivals == [] {
      NewTracks();
      NoneOnce();
      assert AsSet(Run(arrivals).1) == {};
    } else {
      RunTracks(arrivals[..|arrivals| - 1]);
      var (w, accepted) := Run(arrivals[..|arrivals| - 1]);
      var a := arrivals[|arrivals| - 1];
      assert Plain(a.sequence);
      if !AlreadyReceived(w, a.sequence) && a.authentic {
        Accept(w, accepted, a.sequence);
      }
    }
  }

  lemma NoneOnce()
    ensures Once([])
  {
  }

  /**
   * So after every run a sequence counts as received exactly when it is too old for the window or
   * was accepted: none is accepted twice, and none inside the window is refused wrongly.
   */
  lemma RunExact(arrivals: seq<Arrival>, s: nat)
    requires AllPlain(arrivals) && Plain(s)
    ensures var (w, accepted) := Run(arrivals);
            AlreadyReceived(w, s) <==> s + SIZE <= w.mostRecent || s in accepted
  {
    hide Tracks;
    hide Run;
    hide AlreadyReceived;
    RunTracks(arrivals);
    Exact(Run(arrivals).0, AsSet(Run(arrivals).1), s);
  }
}

/** The window as an object that is updated in place. */
module ReplayProtecting {
  import opened Base
  import W = ReplayWindow

  class ReplayProtection {
    var mostRecentSequence: nat
    const receivedPacket: array<nat>

    ghost predicate Valid()
      reads this
    {
      receivedPacket.Length == W.SIZE && mostRecentSequence < U64
    }

    ghost function View(): (w: W.Window)
      requires Valid()
      reads this, receivedPacket
      ensures W.WellFormed(w)
    {
      W.Window(mostRecentSequence, receivedPacket[..])
    }

    constructor ()
      ensures Valid() && fresh(receivedPacket) && View() == W.New()
    {
      mostRecentSequence := 0;
      receivedPacket := new nat[W.SIZE](_ => W.EMPTY);
      new;
      assert receivedPacket[..] == W.New().slots;
    }

    method AlreadyReceived(sequence: nat) returns (r: bool)
      requires Valid() && sequence < U64
      ensures r == W.AlreadyReceived(View(), sequence)
    {
      if (sequence + W.SIZE) % U64 <= mostRecentSequence {
        return true;
      }
      var index := sequence % W.SIZE;
      if receivedPacket[index] == W.EMPTY {
        return false;
      }
      if receivedPacket[index] >= sequence {
        return true;
      }
      return false;
    }

    method AdvanceSequence(sequence: nat)
      requires Valid() && sequence < U64
      modifies `mostRecentSequence, receivedPacket
      ensures Valid() && View() == W.Advance(old(View()), sequence)
    {
      if sequence > mostRecentSequence {
        mostRecentSequence := sequence;
      }
      var index := sequence % W.SIZE;
      receivedPacket[index] := sequence;
    }
  }
}
