/**
 * What the times and numbers kept for the clients of a netcode server stand for, over every run
 * (renetcode2/src/server.rs).
 */
module NetcodeRuns {
  import opened Base
  import opened NetcodeTable

  /** The table once a pending client has been heard from. */
  function HeardFrom(t: Table, peer: Peer): Table {
    if peer in t.pending then t.(pending := t.pending[peer := t.pending[peer].(lastReceived := t.time)]) else t
  }

  // ----- The clock

  /** How long the first `n` events take. */
  function Passed(events: seq<Event>, n: nat): nat
    requires n <= |events|
  {
    if n == 0 then 0 else Passed(events, n - 1) + if events[n - 1].TimePasses? then events[n - 1].duration else 0
  }

  lemma RequestShape(t: Table, cfg: Config, peer: Peer, request: Request, encodes: bool)
    requires t.entries != []
    ensures var t' := HandleRequest(t, cfg, peer, request, encodes).0;
            t'.time == t.time && t'.slots == t.slots && |t'.entries| == |t.entries|
  {
    hide CountTaken;
    hide FindId;
    hide FindPeer;
    hide FindMac;
  }

  lemma StepTime(t: Table, cfg: Config, event: Event)
    requires Possible(t, event)
    ensures Step(t, cfg, event).0.time == t.time + if event.TimePasses? then event.duration else 0
    ensures |Step(t, cfg, event).0.slots| == |t.slots| && |Step(t, cfg, event).0.entries| == |t.entries|
  {
    hide FindId;
    hide FindPeer;
    hide FreeSlot;
    hide HandleRequest;
    if event.PacketArrives? && event.arrived.Some? && event.arrived.value.ConnectionRequest? {
      RequestShape(HeardFrom(t, event.peer), cfg, event.peer, event.arrived.value.request, event.encodes);
    }
  }

  lemma {:induction false} Clock(cfg: Config, states: seq<Table>, events: seq<Event>, n: nat)
    requires Run(cfg, states, events) && n < |states|
    ensures states[n].time == states[0].time + Passed(events, n)
  {
    hide Step;
    hide New;
    if n > 0 {
      Clock(cfg, states, events, n - 1);
      StepTime(states[n - 1], cfg, events[n - 1]);
    }
  }

  lemma {:induction false} TimeGrows(cfg: Config, states: seq<Table>, events: seq<Event>, k: nat, n: nat)
    requires Run(cfg, states, events) && k <= n < |states|
    ensures states[k].time <= states[n].time
    decreases n
  {
    hide Step;
    hide New;
    if k < n {
      TimeGrows(cfg, states, events, k, n - 1);
      StepTime(states[n - 1], cfg, events[n - 1]);
    }
  }

  /** A pending client stays exactly until the seconds of the clock pass its token's timestamp. */
  lemma PendingUntilExpired(t: Table, cfg: Config, duration: nat, peer: Peer)
    requires Possible(t, TimePasses(duration))
    ensures var t' := Step(t, cfg, TimePasses(duration)).0;
            && (peer in t'.pending <==>
                  peer in t.pending && (t.time + duration) / 1_000_000_000 <= t.pending[peer].expireTimestamp)
            && (peer in t'.pending ==> t'.pending[peer] == t.pending[peer])
  {
  }

  // ----- When a client was last heard

  /** A packet of the peer arrives and can be decoded. */
  predicate Hears(event: Event, peer: Peer) {
    event.PacketArrives? && event.peer == peer && event.arrived.Some?
  }

  lemma RequestHeard(t: Table, cfg: Config, peer: Peer, request: Request, encodes: bool, p: Peer)
    requires t.entries != [] && p in HandleRequest(t, cfg, peer, request, encodes).0.pending
    requires peer in t.pending ==> t.pending[peer].lastReceived == t.time
    ensures var c := HandleRequest(t, cfg, peer, request, encodes).0.pending[p];
            if p == peer then c.lastReceived == t.time else p in t.pending && c == t.pending[p]
  {
    hide CountTaken;
    hide FindId;
    hide FindPeer;
    hide FindOrAdd;
  }

  lemma PendingHeard(t: Table, cfg: Config, event: Event, p: Peer)
    requires Inv(t) && Possible(t, event) && p in Step(t, cfg, event).0.pending
    ensures var c := Step(t, cfg, event).0.pending[p];
            if Hears(event, p) then c.lastReceived == t.time
            else p in t.pending && c.lastReceived == t.pending[p].lastReceived
  {
    hide PendingOk;
    hide SlotsOk;
    hide OneEntryEach;
    hide FindId;
    hide HandleRequest;
    hide FreeSlot;
    if event.PacketArrives? && event.arrived.Some? {
      var peer := event.peer;
      if FindPeer(t.slots, peer).Some? {
        var i := FindPeer(t.slots, peer).value;
        assert t.slots[i].value.peer == peer;
      } else if event.arrived.value.ConnectionRequest? {
        RequestHeard(HeardFrom(t, peer), cfg, peer, event.arrived.value.request, event.encodes, p);
      }
    }
  }

  lemma SlotHeard(t: Table, cfg: Config, event: Event, i: nat)
    requires Inv(t) && Possible(t, event) && i < |Step(t, cfg, event).0.slots| && Step(t, cfg, event).0.slots[i].Some?
    ensures var c := Step(t, cfg, event).0.slots[i].value;
            if Hears(event, c.peer) then c.lastReceived == t.time
            else
              && i < |t.slots| && t.slots[i].Some?
              && c.peer == t.slots[i].value.peer && c.lastReceived == t.slots[i].value.lastReceived
  {
    hide Apart;
    hide OneEntryEach;
    hide FindId;
    hide HandleRequest;
    hide FreeSlot;
    if event.PacketArrives? && event.arrived.Some? {
      var peer := event.peer;
      if FindPeer(t.slots, peer).Some? {
        var j := FindPeer(t.slots, peer).value;
        assert HasPeer(t.slots[j], peer);
      } else if event.arrived.value.ConnectionRequest? {
        RequestShape(HeardFrom(t, peer), cfg, peer, event.arrived.value.request, event.encodes);
      }
    }
  }

  /** The last packet of the peer that could be decoded came at `time`. */
  ghost predicate LastHeardAt(states: seq<Table>, events: seq<Event>, n: nat, peer: Peer, time: nat) {
    && n <= |events| <= |states|
    && (forall k :: 0 <= k < n && Hears(events[k], peer) ==> states[k].time <= time)
    && exists k :: 0 <= k < n && Hears(events[k], peer) && states[k].time == time
  }

  lemma HeardStays(states: seq<Table>, events: seq<Event>, n: nat, peer: Peer, time: nat)
    requires LastHeardAt(states, events, n, peer, time) && n < |events| && !Hears(events[n], peer)
    ensures LastHeardAt(states, events, n + 1, peer, time)
  {
    hide Hears;
    var k :| 0 <= k < n && Hears(events[k], peer) && states[k].time == time;
    assert Hears(events[k], peer) && states[k].time == time;
  }

  lemma HeardNow(cfg: Config, states: seq<Table>, events: seq<Event>, n: nat, peer: Peer)
    requires Run(cfg, states, events) && n < |events| && Hears(events[n], peer)
    ensures LastHeardAt(states, events, n + 1, peer, states[n].time)
  {
    hide Hears;
    hide Run;
    RunLengths(cfg, states, events);
    forall k | 0 <= k < n + 1 && Hears(events[k], peer)
      ensures states[k].time <= states[n].time
    {
      TimeGrows(cfg, states, events, k, n);
    }
  }

  lemma RunLengths(cfg: Config, states: seq<Table>, events: seq<Event>)
    requires Run(cfg, states, events)
    ensures |states| == |events| + 1
  {
    hide Step;
    hide New;
  }

  /** For every client, pending or connected, the time noted is that of its last packet. */
  lemma {:induction false} LastHeard(cfg: Config, states: seq<Table>, events: seq<Event>, n: nat)
    requires Run(cfg, states, events) && n < |states|
    ensures forall p :: p in states[n].pending ==>
              LastHeardAt(states, events, n, p, states[n].pending[p].lastReceived)
    ensures forall i :: 0 <= i < |states[n].slots| && states[n].slots[i].Some? ==>
              var c := states[n].slots[i].value; LastHeardAt(states, events, n, c.peer, c.lastReceived)
  {
    hide Step;
    hide Inv;
    hide Possible;
    hide Hears;
    hide LastHeardAt;
    if n > 0 {
      var t, event := states[n - 1], events[n - 1];
      LastHeard(cfg, states, events, n - 1);
      RunInv(cfg, states, events, n - 1);
      forall p | p in states[n].pending
        ensures LastHeardAt(states, events, n, p, states[n].pending[p].lastReceived)
      {
        PendingHeard(t, cfg, event, p);
        if Hears(event, p) {
          HeardNow(cfg, states, events, n - 1, p);
        } else {
          HeardStays(states, events, n - 1, p, states[n].pending[p].lastReceived);
        }
      }
      forall i | 0 <= i < |states[n].slots| && states[n].slots[i].Some?
        ensures var c := states[n].slots[i].value; LastHeardAt(states, events, n, c.peer, c.lastReceived)
      {
        var c := states[n].slots[i].value;
        SlotHeard(t, cfg, event, i);
        if Hears(event, c.peer) {
          HeardNow(cfg, states, events, n - 1, c.peer);
        } else {
          HeardStays(states, events, n - 1, c.peer, c.lastReceived);
        }
      }
    }
  }

  /** No packet of the peer could be decoded in the last `seconds` seconds. */
  ghost predicate SilentFor(states: seq<Table>, events: seq<Event>, n: nat, peer: Peer, seconds: int)
    requires n <= |events| < |states|
  {
    forall k :: 0 <= k < n && Hears(events[k], peer) ==> states[k].time + seconds * 1_000_000_000 < states[n].time
  }

  /**
   * An update of a client takes its slot away exactly when its token sets a time limit and none of
   * its packets has arrived within it. A client that goes on sending is never timed out.
   */
  lemma TimedOutExactly(cfg: Config, states: seq<Table>, events: seq<Event>, n: nat, i: nat, id: nat, encodes: bool)
    requires Run(cfg, states, events) && n < |events| && events[n] == ClientUpdated(id, encodes)
    requires i < |states[n].slots| && states[n].slots[i].Some?
    ensures |states[n + 1].slots| == |states[n].slots|
    ensures var c := states[n].slots[i].value;
            states[n + 1].slots[i].None? <==>
              && FindId(states[n].slots, id) == Some(i) && c.timeoutSeconds > 0
              && SilentFor(states, events, n, c.peer, c.timeoutSeconds)
  {
    hide Step;
    hide Inv;
    hide FindId;
    hide New;
    hide Hears;
    RunInv(cfg, states, events, n);
    LastHeard(cfg, states, events, n);
    SlotEndsExactly(states[n], cfg, events[n], i);
    var c := states[n].slots[i].value;
    assert LastHeardAt(states, events, n, c.peer, c.lastReceived);
  }

  // ----- When a client was last written to

  /** A packet goes to the peer on its connection: a challenge, the first keep-alive, a later one, or a payload. */
  ghost predicate Speaks(t: Table, cfg: Config, event: Event, peer: Peer) {
    && Possible(t, event)
    && match Step(t, cfg, event).1
       case Accepted(_, p) => p == peer
       case ClientConnected(_, p, _) => p == peer
       case ToSend(p) => p == peer
       case _ => false
  }

  lemma RequestSpoken(t: Table, cfg: Config, peer: Peer, request: Request, encodes: bool, p: Peer)
    requires t.entries != [] && p in HandleRequest(t, cfg, peer, request, encodes).0.pending
    ensures var (t', outcome) := HandleRequest(t, cfg, peer, request, encodes);
            var c := t'.pending[p];
            && (outcome.Accepted? ==> outcome.peer == peer)
            && !outcome.ClientConnected? && !outcome.ToSend?
            && if outcome.Accepted? && p == peer then c.lastSend == t.time
               else p in t.pending && c.lastSend == t.pending[p].lastSend
  {
    hide CountTaken;
    hide FindId;
    hide FindPeer;
    hide FindOrAdd;
  }

  lemma PendingSpoken(t: Table, cfg: Config, event: Event, p: Peer)
    requires Inv(t) && Possible(t, event) && p in Step(t, cfg, event).0.pending
    ensures var c := Step(t, cfg, event).0.pending[p];
            if Speaks(t, cfg, event, p) then c.lastSend == t.time
            else p in t.pending && c.lastSend == t.pending[p].lastSend
  {
    hide PendingOk;
    hide SlotsOk;
    hide OneEntryEach;
    hide HandleRequest;
    hide FreeSlot;
    if event.PacketArrives? && event.arrived.Some? && event.arrived.value.ConnectionRequest? {
      var peer := event.peer;
      if FindPeer(t.slots, peer).None? {
        RequestSpoken(HeardFrom(t, peer), cfg, peer, event.arrived.value.request, event.encodes, p);
      }
    }
  }

  /** What a step makes of the client in slot `i`. */
  ghost predicate Numbered(t: Table, cfg: Config, event: Event, i: nat) {
    && Possible(t, event) && i < |Step(t, cfg, event).0.slots| && Step(t, cfg, event).0.slots[i].Some?
    && var c := Step(t, cfg, event).0.slots[i].value;
       var speaks := Speaks(t, cfg, event, c.peer);
       && (speaks ==> c.lastSend == t.time)
       && if i < |t.slots| && t.slots[i].Some? then
            var before := t.slots[i].value;
            && c.peer == before.peer && c.sequence == before.sequence + (if speaks then 1 else 0)
            && (!speaks ==> c.lastSend == before.lastSend)
          else speaks && c.peer in t.pending && c.sequence == t.pending[c.peer].sequence + 1
  }

  lemma ClientSpoken(t: Table, cfg: Config, event: Event, i: nat)
    requires Inv(t) && Possible(t, event) && i < |Step(t, cfg, event).0.slots| && Step(t, cfg, event).0.slots[i].Some?
    requires event.PacketArrives? && FindPeer(t.slots, event.peer).Some?
    ensures Numbered(t, cfg, event, i)
  {
    hide OneEntryEach;
    hide HandleRequest;
    hide FromPending;
    hide PendingOk;
    hide Apart;
  }

  lemma PacketSpoken(t: Table, cfg: Config, event: Event, i: nat)
    requires Inv(t) && Possible(t, event) && i < |Step(t, cfg, event).0.slots| && Step(t, cfg, event).0.slots[i].Some?
    requires event.PacketArrives?
    ensures Numbered(t, cfg, event, i)
  {
    hide OneEntryEach;
    hide HandleRequest;
    hide FromClient;
    hide SlotsOk;
    if FindPeer(t.slots, event.peer).Some? {
      ClientSpoken(t, cfg, event, i);
    } else if event.arrived.Some? && event.arrived.value.ConnectionRequest? {
      RequestShape(HeardFrom(t, event.peer), cfg, event.peer, event.arrived.value.request, event.encodes);
      RequestOutcome(HeardFrom(t, event.peer), cfg, event.peer, event.arrived.value.request, event.encodes);
      assert !HasPeer(t.slots[i], event.peer);
    }
  }

  lemma SlotSpoken(t: Table, cfg: Config, event: Event, i: nat)
    requires Inv(t) && Possible(t, event) && i < |Step(t, cfg, event).0.slots| && Step(t, cfg, event).0.slots[i].Some?
    ensures Numbered(t, cfg, event, i)
  {
    hide OneEntryEach;
    hide ProcessPacket;
    hide PendingOk;
    hide Apart;
    if event.PacketArrives? {
      PacketSpoken(t, cfg, event, i);
    }
  }

  lemma RequestOutcome(t: Table, cfg: Config, peer: Peer, request: Request, encodes: bool)
    requires t.entries != []
    ensures var outcome := HandleRequest(t, cfg, peer, request, encodes).1;
            (outcome.Accepted? ==> outcome.peer == peer) && !outcome.ClientConnected? && !outcome.ToSend?
  {
    hide CountTaken;
    hide FindId;
    hide FindPeer;
    hide FindOrAdd;
  }

  /** The last packet to the peer went out at `time`. */
  ghost predicate LastSpokenAt(cfg: Config, states: seq<Table>, events: seq<Event>, n: nat, peer: Peer, time: nat) {
    && n <= |events| <= |states|
    && (forall k :: 0 <= k < n && Speaks(states[k], cfg, events[k], peer) ==> states[k].time <= time)
    && exists k :: 0 <= k < n && Speaks(states[k], cfg, events[k], peer) && states[k].time == time
  }

  lemma SpokenStays(cfg: Config, states: seq<Table>, events: seq<Event>, n: nat, peer: Peer, time: nat)
    requires LastSpokenAt(cfg, states, events, n, peer, time)
    requires n < |events| && !Speaks(states[n], cfg, events[n], peer)
    ensures LastSpokenAt(cfg, states, events, n + 1, peer, time)
  {
    hide Speaks;
    var k :| 0 <= k < n && Speaks(states[k], cfg, events[k], peer) && states[k].time == time;
    assert Speaks(states[k], cfg, events[k], peer) && states[k].time == time;
  }

  lemma SpokenNow(cfg: Config, states: seq<Table>, events: seq<Event>, n: nat, peer: Peer)
    requires Run(cfg, states, events) && n < |events| && n < |states| && Speaks(states[n], cfg, events[n], peer)
    ensures LastSpokenAt(cfg, states, events, n + 1, peer, states[n].time)
  {
    hide Speaks;
    hide Run;
    RunLengths(cfg, states, events);
    forall k | 0 <= k < n + 1 && Speaks(states[k], cfg, events[k], peer)
      ensures states[k].time <= states[n].time
    {
      TimeGrows(cfg, states, events, k, n);
    }
  }

  /** For every client, pending or connected, the other time noted is that of the last packet to it. */
  lemma {:induction false} LastSpoken(cfg: Config, states: seq<Table>, events: seq<Event>, n: nat)
    requires Run(cfg, states, events) && n < |states|
    ensures forall p :: p in states[n].pending ==>
              LastSpokenAt(cfg, states, events, n, p, states[n].pending[p].lastSend)
    ensures forall i :: 0 <= i < |states[n].slots| && states[n].slots[i].Some? ==>
              var c := states[n].slots[i].value; LastSpokenAt(cfg, states, events, n, c.peer, c.lastSend)
  {
    hide Step;
    hide Inv;
    hide Possible;
    hide Speaks;
    hide LastSpokenAt;
    if n > 0 {
      var t, event := states[n - 1], events[n - 1];
      LastSpoken(cfg, states, events, n - 1);
      RunInv(cfg, states, events, n - 1);
      forall p | p in states[n].pending
        ensures LastSpokenAt(cfg, states, events, n, p, states[n].pending[p].lastSend)
      {
        PendingSpoken(t, cfg, event, p);
        if Speaks(t, cfg, event, p) {
          SpokenNow(cfg, states, events, n - 1, p);
        } else {
          SpokenStays(cfg, states, events, n - 1, p, states[n].pending[p].lastSend);
        }
      }
      forall i | 0 <= i < |states[n].slots| && states[n].slots[i].Some?
        ensures var c := states[n].slots[i].value; LastSpokenAt(cfg, states, events, n, c.peer, c.lastSend)
      {
        var c := states[n].slots[i].value;
        SlotSpoken(t, cfg, event, i);
        if Speaks(t, cfg, event, c.peer) {
          SpokenNow(cfg, states, events, n - 1, c.peer);
        } else {
          SpokenStays(cfg, states, events, n - 1, c.peer, c.lastSend);
        }
      }
    }
  }

  /** Nothing has gone to the peer for 250 ms. */
  ghost predicate UnspokenFor250Ms(cfg: Config, states: seq<Table>, events: seq<Event>, n: nat, peer: Peer)
    requires n <= |events| < |states|
  {
    forall k :: 0 <= k < n && Speaks(states[k], cfg, events[k], peer) ==> states[k].time + 250_000_000 <= states[n].time
  }

  /** An update of a client that is not timed out sends a keep-alive exactly when nothing went to it for 250 ms. */
  lemma KeepAliveExactly(cfg: Config, states: seq<Table>, events: seq<Event>, n: nat, i: nat, id: nat, encodes: bool)
    requires Run(cfg, states, events) && n < |events| && events[n] == ClientUpdated(id, encodes)
    requires i < |states[n].slots| && FindId(states[n].slots, id) == Some(i)
    ensures Possible(states[n], events[n])
    ensures var c := states[n].slots[i].value;
            Step(states[n], cfg, events[n]).1 == ToSend(c.peer) <==>
              && encodes && !(c.timeoutSeconds > 0 && SilentFor(states, events, n, c.peer, c.timeoutSeconds))
              && UnspokenFor250Ms(cfg, states, events, n, c.peer)
  {
    hide Inv;
    hide FindId;
    hide New;
    hide Hears;
    hide Speaks;
    hide ProcessPacket;
    RunInv(cfg, states, events, n);
    LastHeard(cfg, states, events, n);
    LastSpoken(cfg, states, events, n);
    var c := states[n].slots[i].value;
    SlotState(states[n], i);
    assert LastHeardAt(states, events, n, c.peer, c.lastReceived);
    assert LastSpokenAt(cfg, states, events, n, c.peer, c.lastSend);
  }

  // ----- Sequences

  /** How many packets go to the peer from event `k` up to event `n`. */
  ghost function PacketsTo(cfg: Config, states: seq<Table>, events: seq<Event>, k: nat, n: nat, peer: Peer): nat
    requires k <= n <= |events| < |states|
  {
    if k == n then 0
    else
      PacketsTo(cfg, states, events, k, n - 1, peer) + if Speaks(states[n - 1], cfg, events[n - 1], peer) then 1 else 0
  }

  lemma {:induction false} PendingSequence(cfg: Config, states: seq<Table>, events: seq<Event>, n: nat)
    requires Run(cfg, states, events) && n < |states|
    ensures forall p :: p in states[n].pending ==> states[n].pending[p].sequence == 0
  {
    hide Step;
    hide Inv;
    hide Possible;
    if n > 0 {
      PendingSequence(cfg, states, events, n - 1);
      RunInv(cfg, states, events, n - 1);
      forall p | p in states[n].pending
        ensures states[n].pending[p].sequence == 0
      {
        PendingUnsequenced(states[n - 1], cfg, events[n - 1], p);
      }
    }
  }

  lemma PendingUnsequenced(t: Table, cfg: Config, event: Event, p: Peer)
    requires Possible(t, event) && p in Step(t, cfg, event).0.pending
    ensures Step(t, cfg, event).0.pending[p].sequence == if p in t.pending then t.pending[p].sequence else 0
  {
    hide FindId;
    hide FindPeer;
    hide FreeSlot;
    hide HandleRequest;
    if event.PacketArrives? && event.arrived.Some? && event.arrived.value.ConnectionRequest? {
      if FindPeer(t.slots, event.peer).None? {
        RequestUnsequenced(HeardFrom(t, event.peer), cfg, event.peer, event.arrived.value.request, event.encodes, p);
      }
    }
  }

  lemma RequestUnsequenced(t: Table, cfg: Config, peer: Peer, request: Request, encodes: bool, p: Peer)
    requires t.entries != [] && p in HandleRequest(t, cfg, peer, request, encodes).0.pending
    ensures HandleRequest(t, cfg, peer, request, encodes).0.pending[p].sequence ==
              if p in t.pending then t.pending[p].sequence else 0
  {
    hide CountTaken;
    hide FindId;
    hide FindPeer;
    hide FindOrAdd;
  }

  /** Slot `i` is taken from state `k` up to state `n`. */
  ghost predicate TakenFrom(states: seq<Table>, i: nat, k: nat, n: nat) {
    forall m :: k <= m <= n && m < |states| ==> i < |states[m].slots| && states[m].slots[i].Some?
  }

  /**
   * The sequence kept for a client counts the packets sent to it on its connection, the first with
   * its slot: no sequence is used for two of them.
   */
  lemma {:induction false} SequenceCounts(cfg: Config, states: seq<Table>, events: seq<Event>, i: nat, k: nat, n: nat)
    requires Run(cfg, states, events) && 0 < k <= n < |states| && TakenFrom(states, i, k, n)
    requires i < |states[k - 1].slots| && states[k - 1].slots[i].None?
    ensures var c := states[n].slots[i].value;
            c.peer == states[k].slots[i].value.peer && c.sequence == 1 + PacketsTo(cfg, states, events, k, n, c.peer)
    decreases n
  {
    hide Step;
    hide Inv;
    hide Possible;
    hide Speaks;
    hide New;
    assert i < |states[n].slots| && states[n].slots[i].Some?;
    RunInv(cfg, states, events, n - 1);
    SlotSpoken(states[n - 1], cfg, events[n - 1], i);
    if n == k {
      PendingSequence(cfg, states, events, n - 1);
    } else {
      SequenceCounts(cfg, states, events, i, k, n - 1);
    }
  }

  // ----- Packets outside connections

  /** A challenge or a refusal goes out, numbered with the sequence of the server. */
  predicate Numbers(outcome: Outcome) {
    outcome.Accepted? || (outcome.Denied? && outcome.payload)
  }

  /** A challenge is made for the request that arrives. */
  ghost predicate Challenges(t: Table, cfg: Config, event: Event) {
    && event.PacketArrives? && event.arrived.Some? && event.arrived.value.ConnectionRequest?
    && Welcome(t, cfg, event.peer, event.arrived.value.request)
    && (event.peer in t.pending || |t.pending| < MAX_PENDING_CLIENTS) && CountTaken(t.slots) < t.maxClients
  }

  lemma RequestNumbers(t: Table, cfg: Config, peer: Peer, request: Request, encodes: bool)
    requires Inv(t)
    ensures var (t', outcome) := HandleRequest(t, cfg, peer, request, encodes);
            var room := peer in t.pending || |t.pending| < MAX_PENDING_CLIENTS;
            && t'.globalSequence == t.globalSequence + (if Numbers(outcome) then 1 else 0)
            && t'.challengeSequence ==
                 t.challengeSequence +
                 if Welcome(t, cfg, peer, request) && room && CountTaken(t.slots) < t.maxClients then 1 else 0
  {
    hide CountTaken;
    hide FindId;
    hide PendingOk;
    hide SlotsOk;
    hide Apart;
    BoundTo(t.entries, Entry(t.time, peer, request.mac));
    hide FindOrAdd;
    hide OneEntryEach;
  }

  /** Each number of the server goes to one packet, and each number of its challenges to one challenge. */
  lemma StepNumbers(t: Table, cfg: Config, event: Event)
    requires Inv(t) && Possible(t, event)
    ensures var (t', outcome) := Step(t, cfg, event);
            && t'.globalSequence == t.globalSequence + (if Numbers(outcome) then 1 else 0)
            && t'.challengeSequence == t.challengeSequence + (if Challenges(t, cfg, event) then 1 else 0)
            && (outcome.Accepted? ==> Challenges(t, cfg, event))
  {
    hide CountTaken;
    hide FindId;
    hide FreeSlot;
    hide HandleRequest;
    hide Welcome;
    if event.PacketArrives? && event.arrived.Some? && event.arrived.value.ConnectionRequest? {
      var peer, request := event.peer, event.arrived.value.request;
      SameWelcome(t, cfg, peer, request);
      SameKeys(t, peer);
      if FindPeer(t.slots, peer).None? {
        HeardInv(t, peer);
        RequestNumbers(HeardFrom(t, peer), cfg, peer, request, event.encodes);
        AcceptedExactly(HeardFrom(t, peer), cfg, peer, request, event.encodes);
      }
    }
  }

  lemma SameWelcome(t: Table, cfg: Config, peer: Peer, request: Request)
    ensures Welcome(HeardFrom(t, peer), cfg, peer, request) <==> Welcome(t, cfg, peer, request)
    ensures Welcome(t, cfg, peer, request) ==> FindPeer(t.slots, peer).None?
  {
    hide FindId;
    hide FindPeer;
  }

  lemma HeardInv(t: Table, peer: Peer)
    requires Inv(t)
    ensures Inv(HeardFrom(t, peer))
  {
    SameKeys(t, peer);
  }

  lemma SameKeys(t: Table, peer: Peer)
    ensures HeardFrom(t, peer).pending.Keys == t.pending.Keys && |HeardFrom(t, peer).pending| == |t.pending|
  {
    assert HeardFrom(t, peer).pending.Keys == t.pending.Keys;
    assert |t.pending| == |t.pending.Keys|;
  }

  lemma {:induction false} NumbersGrow(cfg: Config, states: seq<Table>, events: seq<Event>, k: nat, n: nat)
    requires Run(cfg, states, events) && k <= n < |states|
    ensures states[k].globalSequence <= states[n].globalSequence
    ensures states[k].challengeSequence <= states[n].challengeSequence
    decreases n
  {
    hide Step;
    hide Inv;
    hide Possible;
    hide New;
    if k < n {
      NumbersGrow(cfg, states, events, k, n - 1);
      RunInv(cfg, states, events, n - 1);
      StepNumbers(states[n - 1], cfg, events[n - 1]);
    }
  }

  /** In every run no two packets outside connections have the same number, nor have two challenges. */
  lemma NoNumberTwice(cfg: Config, states: seq<Table>, events: seq<Event>, k: nat, n: nat)
    requires Run(cfg, states, events) && k < n < |events|
    requires Possible(states[k], events[k]) && Numbers(Step(states[k], cfg, events[k]).1)
    ensures states[k].globalSequence < states[n].globalSequence
    ensures Step(states[k], cfg, events[k]).1.Accepted? ==> states[k].challengeSequence < states[n].challengeSequence
  {
    hide Step;
    hide Inv;
    hide Possible;
    hide New;
    hide Challenges;
    RunInv(cfg, states, events, k);
    StepNumbers(states[k], cfg, events[k]);
    NumbersGrow(cfg, states, events, k + 1, n);
  }

  // ----- When a client counts as confirmed

  /** The peer sends a payload or a keep-alive, which shows that it knows it is connected. */
  predicate Confirms(event: Event, peer: Peer) {
    event.PacketArrives? && event.peer == peer && (event.arrived == Some(Payload) || event.arrived == Some(KeepAlive))
  }

  lemma SlotConfirmed(t: Table, cfg: Config, event: Event, i: nat)
    requires Inv(t) && Possible(t, event) && i < |Step(t, cfg, event).0.slots| && Step(t, cfg, event).0.slots[i].Some?
    ensures var c := Step(t, cfg, event).0.slots[i].value;
            if i < |t.slots| && t.slots[i].Some? then
              && c.peer == t.slots[i].value.peer
              && (c.confirmed <==> t.slots[i].value.confirmed || Confirms(event, c.peer))
            else !Confirms(event, c.peer) && c.peer in t.pending && c.confirmed == t.pending[c.peer].confirmed
  {
    hide Apart;
    hide OneEntryEach;
    hide FindId;
    hide HandleRequest;
    hide FreeSlot;
    if event.PacketArrives? && event.arrived.Some? {
      var peer := event.peer;
      if FindPeer(t.slots, peer).Some? {
        var j := FindPeer(t.slots, peer).value;
        assert HasPeer(t.slots[j], peer);
        assert i < |t.slots| && i != j && t.slots[i].Some? ==> t.slots[i].value.peer != peer;
      } else if event.arrived.value.ConnectionRequest? {
        RequestShape(HeardFrom(t, peer), cfg, peer, event.arrived.value.request, event.encodes);
      }
    }
  }

  lemma PendingUnconfirmed(t: Table, cfg: Config, event: Event, p: Peer)
    requires Possible(t, event) && p in Step(t, cfg, event).0.pending
    ensures Step(t, cfg, event).0.pending[p].confirmed == (p in t.pending && t.pending[p].confirmed)
  {
    hide FindId;
    hide FindPeer;
    hide FreeSlot;
    hide HandleRequest;
    if event.PacketArrives? && event.arrived.Some? && event.arrived.value.ConnectionRequest? {
      if FindPeer(t.slots, event.peer).None? {
        RequestUnconfirmed(HeardFrom(t, event.peer), cfg, event.peer, event.arrived.value.request, event.encodes, p);
      }
    }
  }

  lemma RequestUnconfirmed(t: Table, cfg: Config, peer: Peer, request: Request, encodes: bool, p: Peer)
    requires t.entries != [] && p in HandleRequest(t, cfg, peer, request, encodes).0.pending
    ensures HandleRequest(t, cfg, peer, request, encodes).0.pending[p].confirmed ==
              (p in t.pending && t.pending[p].confirmed)
  {
    hide CountTaken;
    hide FindId;
    hide FindPeer;
    hide FindOrAdd;
  }

  lemma {:induction false} NonePending(cfg: Config, states: seq<Table>, events: seq<Event>, n: nat)
    requires Run(cfg, states, events) && n < |states|
    ensures forall p :: p in states[n].pending ==> !states[n].pending[p].confirmed
  {
    hide Step;
    hide Inv;
    hide Possible;
    if n > 0 {
      NonePending(cfg, states, events, n - 1);
      RunInv(cfg, states, events, n - 1);
      forall p | p in states[n].pending
        ensures !states[n].pending[p].confirmed
      {
        PendingUnconfirmed(states[n - 1], cfg, events[n - 1], p);
      }
    }
  }

  /** A client counts as confirmed exactly if it sent a payload or a keep-alive since it has its slot. */
  lemma {:induction false} ConfirmedExactly(cfg: Config, states: seq<Table>, events: seq<Event>, i: nat, k: nat, n: nat)
    requires Run(cfg, states, events) && 0 < k <= n < |states| && TakenFrom(states, i, k, n)
    requires i < |states[k - 1].slots| && states[k - 1].slots[i].None?
    ensures var c := states[n].slots[i].value;
            && c.peer == states[k].slots[i].value.peer
            && (c.confirmed <==> exists m :: k <= m < n && Confirms(events[m], c.peer))
    decreases n
  {
    hide Step;
    hide Inv;
    hide Possible;
    hide New;
    hide Confirms;
    assert i < |states[n].slots| && states[n].slots[i].Some?;
    RunInv(cfg, states, events, n - 1);
    SlotConfirmed(states[n - 1], cfg, events[n - 1], i);
    if n == k {
      NonePending(cfg, states, events, n - 1);
    } else {
      ConfirmedExactly(cfg, states, events, i, k, n - 1);
    }
  }

  // ----- What is reported

  /** A payload is handed on exactly when it comes from the peer of a connected client, under that client's id. */
  lemma PayloadExactly(t: Table, cfg: Config, event: Event, id: nat)
    requires Inv(t) && Possible(t, event)
    ensures Step(t, cfg, event).1 == PayloadFrom(id) <==>
              && event.PacketArrives? && event.arrived == Some(Payload)
              && exists i :: 0 <= i < |t.slots| && HasPeer(t.slots[i], event.peer) && HasId(t.slots[i], id)
  {
    hide PendingOk;
    hide Apart;
    hide OneEntryEach;
    hide HandleRequest;
    hide FindId;
    if event.PacketArrives? && event.arrived.Some? {
      match FindPeer(t.slots, event.peer)
      case Some(i) =>
        assert HasPeer(t.slots[i], event.peer);
      case None =>
        if event.arrived.value.ConnectionRequest? {
          RequestReported(HeardFrom(t, event.peer), cfg, event.peer, event.arrived.value.request, event.encodes);
        }
    }
  }

  lemma RequestReported(t: Table, cfg: Config, peer: Peer, request: Request, encodes: bool)
    requires t.entries != []
    ensures var outcome := HandleRequest(t, cfg, peer, request, encodes).1;
            !outcome.PayloadFrom? && !outcome.ClientConnected? && !outcome.ClientDisconnected?
  {
    hide CountTaken;
    hide FindId;
    hide FindPeer;
    hide FindOrAdd;
  }

  /** A client is reported as connected exactly by the step with which it takes a slot, with its challenge's data. */
  lemma ConnectedReported(t: Table, cfg: Config, event: Event, id: nat, peer: Peer, data: Bytes)
    requires Inv(t) && Possible(t, event)
    ensures var (t', outcome) := Step(t, cfg, event);
            && |t'.slots| == |t.slots|
            && (outcome == ClientConnected(id, peer, data) <==>
                  exists i :: && 0 <= i < |t.slots| && t.slots[i].None?
                              && HasPeer(t'.slots[i], peer) && HasId(t'.slots[i], id)
                              && t'.slots[i].value.userData == data)
  {
    hide Apart;
    hide OneEntryEach;
    hide HandleRequest;
    StepTime(t, cfg, event);
    if event.PacketArrives? && event.arrived.Some? && event.arrived.value.ConnectionRequest? {
      if FindPeer(t.slots, event.peer).None? {
        RequestReported(HeardFrom(t, event.peer), cfg, event.peer, event.arrived.value.request, event.encodes);
        RequestShape(HeardFrom(t, event.peer), cfg, event.peer, event.arrived.value.request, event.encodes);
      }
    }
  }

  /** What comes of the answer to a challenge; in any case the peer is not pending any more. */
  lemma AnsweredExactly(t: Table, cfg: Config, peer: Peer, challenge: ChallengeToken, encodes: bool)
    requires Inv(t) && peer in t.pending
    ensures var event := PacketArrives(peer, Some(Response(Some(challenge))), encodes);
            && Possible(t, event)
            && var (t', outcome) := Step(t, cfg, event);
               var taken := exists i :: 0 <= i < |t.slots| && HasId(t.slots[i], challenge.clientId);
               var free := exists i :: 0 <= i < |t.slots| && t.slots[i].None?;
               && t'.pending == t.pending - {peer}
               && (outcome == ClientConnected(t.pending[peer].clientId, peer, challenge.userData) <==>
                     !taken && free && encodes)
               && (outcome == Denied(peer, true) <==> !taken && !free && encodes)
               && (outcome == Nothing <==> taken) && (outcome == Failed <==> !taken && !encodes)
  {
    hide PendingOk;
    hide OneEntryEach;
    hide HandleRequest;
    var heard := HeardFrom(t, peer);
    assert heard.pending - {peer} == t.pending - {peer};
  }

  /** And as disconnected exactly by the step with which it loses one. */
  lemma DisconnectedReported(t: Table, cfg: Config, event: Event, id: nat, peer: Peer)
    requires Inv(t) && Possible(t, event)
    ensures var (t', outcome) := Step(t, cfg, event);
            && |t'.slots| == |t.slots|
            && ((exists payload :: outcome == ClientDisconnected(id, peer, payload)) <==>
                  exists i :: && 0 <= i < |t.slots| && t'.slots[i].None?
                              && HasPeer(t.slots[i], peer) && HasId(t.slots[i], id))
  {
    hide PendingOk;
    hide Apart;
    hide OneEntryEach;
    hide HandleRequest;
    StepTime(t, cfg, event);
    if event.PacketArrives? && event.arrived.Some? && event.arrived.value.ConnectionRequest? {
      if FindPeer(t.slots, event.peer).None? {
        RequestReported(HeardFrom(t, event.peer), cfg, event.peer, event.arrived.value.request, event.encodes);
        RequestShape(HeardFrom(t, event.peer), cfg, event.peer, event.arrived.value.request, event.encodes);
      }
    }
  }

  /** A payload goes out exactly if it is not too long and there is such a client. */
  lemma PayloadSentExactly(t: Table, id: nat, size: nat, encodes: bool, peer: Peer)
    requires Inv(t)
    ensures var (t', outcome) := GeneratePayload(t, id, size, encodes);
            && (outcome == ToSend(peer) ==>
                  exists i :: 0 <= i < |t.slots| && HasPeer(t.slots[i], peer) && HasId(t.slots[i], id))
            && (outcome.ToSend? <==>
                  size <= 1300 && encodes && exists i :: 0 <= i < |t.slots| && HasId(t.slots[i], id))
            && (!outcome.ToSend? ==> outcome == Failed && t' == t)
  {
  }

  /** The limit set holds, up to the number of slots a server can have. */
  lemma LimitExactly(t: Table, n: nat)
    ensures var t' := SetMaxClients(t, n);
            t' == t.(maxClients := t'.maxClients) && if n <= 1024 then t'.maxClients == n else t'.maxClients == 1024
  {
  }

  // ----- How long a token stays bound to its address

  /** The table knows the token. */
  ghost predicate Bound(t: Table, mac: nat) {
    exists i :: 0 <= i < |t.entries| && HasMac(t.entries[i], mac)
  }

  /** Event `k` lets the token through for the first time, or again after it was forgotten. */
  ghost predicate LetThrough(states: seq<Table>, k: nat, mac: nat) {
    k + 1 < |states| && !Bound(states[k], mac) && Bound(states[k + 1], mac)
  }

  /** One token at most is let through in a step, in place of a free entry or the oldest one. */
  ghost predicate OneNew(t: Table, t': Table) {
    || t'.entries == t.entries
    || exists v: nat, e: Entry ::
         && v < |t.entries| && IsVictim(t.entries, v) && e.time == t.time && !Bound(t, e.mac)
         && t'.entries == t.entries[v := Some(e)]
  }

  lemma RequestOneNew(t: Table, cfg: Config, peer: Peer, request: Request, encodes: bool)
    requires t.entries != []
    ensures OneNew(t, HandleRequest(t, cfg, peer, request, encodes).0)
  {
    hide CountTaken;
    hide FindId;
    hide FindPeer;
    hide IsVictim;
    var t' := HandleRequest(t, cfg, peer, request, encodes).0;
    if t'.entries != t.entries {
      var v, e := Victim(t.entries), Entry(t.time, peer, request.mac);
      VictimIndex(t.entries, v);
      assert IsVictim(t.entries, v) && !Bound(t, e.mac) && t'.entries == t.entries[v := Some(e)];
    }
  }

  lemma StepOneNew(t: Table, cfg: Config, event: Event)
    requires Possible(t, event)
    ensures OneNew(t, Step(t, cfg, event).0)
  {
    hide FindId;
    hide FindPeer;
    hide FreeSlot;
    hide HandleRequest;
    hide IsVictim;
    hide Bound;
    if event.PacketArrives? && event.arrived.Some? && event.arrived.value.ConnectionRequest? {
      if FindPeer(t.slots, event.peer).None? {
        RequestOneNew(HeardFrom(t, event.peer), cfg, event.peer, event.arrived.value.request, event.encodes);
        SameEntries(HeardFrom(t, event.peer), t, Step(t, cfg, event).0);
      }
    }
  }

  lemma SameEntries(t: Table, r: Table, t': Table)
    requires OneNew(t, t') && r.entries == t.entries && r.time == t.time
    ensures OneNew(r, t')
  {
    hide IsVictim;
    if t'.entries != t.entries {
      var v: nat, e: Entry :|
        && v < |t.entries| && IsVictim(t.entries, v) && e.time == t.time && !Bound(t, e.mac)
        && t'.entries == t.entries[v := Some(e)];
      assert !Bound(r, e.mac);
    }
  }

  /** The token was let through at that time, by an event before `n`. */
  ghost predicate LetThroughAt(states: seq<Table>, n: nat, mac: nat, time: nat) {
    exists k :: 0 <= k < n && k < |states| && states[k].time == time && LetThrough(states, k, mac)
  }

  lemma LetThroughStays(states: seq<Table>, n: nat, mac: nat, time: nat)
    requires LetThroughAt(states, n, mac, time)
    ensures LetThroughAt(states, n + 1, mac, time)
  {
    hide LetThrough;
  }

  ghost predicate AllDated(states: seq<Table>, n: nat, entries: seq<Option<Entry>>) {
    forall i :: 0 <= i < |entries| && entries[i].Some? ==>
      LetThroughAt(states, n, entries[i].value.mac, entries[i].value.time)
  }

  /** Every entry carries the time its token was let through. */
  lemma {:induction false} EntriesDated(cfg: Config, states: seq<Table>, events: seq<Event>, n: nat)
    requires Run(cfg, states, events) && n < |states|
    ensures AllDated(states, n, states[n].entries)
  {
    hide Step;
    hide Inv;
    hide Possible;
    if n > 0 {
      hide New;
      EntriesDated(cfg, states, events, n - 1);
      DatedStep(cfg, states, events, n);
    }
  }

  lemma DatedStep(cfg: Config, states: seq<Table>, events: seq<Event>, n: nat)
    requires Run(cfg, states, events) && 0 < n < |states| && AllDated(states, n - 1, states[n - 1].entries)
    ensures AllDated(states, n, states[n].entries)
  {
    hide Step;
    hide New;
    hide LetThroughAt;
    hide IsVictim;
    hide Bound;
    var t, t' := states[n - 1], states[n];
    StepOneNew(t, cfg, events[n - 1]);
    forall i | 0 <= i < |t'.entries| && t'.entries[i].Some?
      ensures LetThroughAt(states, n, t'.entries[i].value.mac, t'.entries[i].value.time)
    {
      var e := t'.entries[i].value;
      if i < |t.entries| && t.entries[i] == t'.entries[i] {
        LetThroughStays(states, n - 1, e.mac, e.time);
      } else {
        assert e.time == t.time && !Bound(t, e.mac);
        EntryBinds(t', i);
        NowLetThrough(states, n, e.mac);
      }
    }
  }

  lemma EntryBinds(t: Table, i: nat)
    requires i < |t.entries| && t.entries[i].Some?
    ensures Bound(t, t.entries[i].value.mac)
  {
    assert HasMac(t.entries[i], t.entries[i].value.mac);
  }

  lemma NowLetThrough(states: seq<Table>, n: nat, mac: nat)
    requires 0 < n < |states| && LetThrough(states, n - 1, mac)
    ensures LetThroughAt(states, n, mac, states[n - 1].time)
  {
    hide LetThrough;
  }

  function Macs(entries: seq<Option<Entry>>): set<nat> {
    set i | 0 <= i < |entries| && entries[i].Some? :: entries[i].value.mac
  }

  /** A full table with one entry for each token knows as many tokens as it has places. */
  lemma {:induction false} MacsCount(entries: seq<Option<Entry>>)
    requires OneEntryEach(entries) && forall i :: 0 <= i < |entries| ==> entries[i].Some?
    ensures |Macs(entries)| == |entries|
  {
    if entries != [] {
      var front, last := entries[..|entries| - 1], entries[|entries| - 1];
      MacsCount(front);
      assert Macs(entries) == Macs(front) + {last.value.mac};
      assert last.value.mac !in Macs(front);
    }
  }

  /** An entry goes only when there is no free place and no older one. */
  lemma ForgottenLast(t: Table, t': Table, i: nat)
    requires OneNew(t, t') && i < |t.entries| && t.entries[i].Some?
    ensures || Bound(t', t.entries[i].value.mac)
            || forall j :: 0 <= j < |t.entries| ==>
                 t.entries[j].Some? && t.entries[i].value.time <= t.entries[j].value.time
  {
    if t'.entries == t.entries {
      EntryBinds(t', i);
    } else {
      var v: nat, e: Entry :|
        && v < |t.entries| && IsVictim(t.entries, v) && e.time == t.time && !Bound(t, e.mac)
        && t'.entries == t.entries[v := Some(e)];
      if v != i {
        EntryBinds(t', i);
      }
    }
  }

  /**
   * A token is forgotten, and free to be used from another address, only after 2047 other tokens
   * have been let through since.
   */
  lemma TokenForgotten(cfg: Config, states: seq<Table>, events: seq<Event>, n: nat, i: nat) returns (macs: set<nat>)
    requires Run(cfg, states, events) && n < |events| && i < |states[n].entries| && states[n].entries[i].Some?
    requires !Bound(states[n + 1], states[n].entries[i].value.mac)
    ensures var e := states[n].entries[i].value;
            && LetThroughAt(states, n, e.mac, e.time) && e.mac !in macs && |macs| == 2047
            && forall m :: m in macs ==> exists time :: e.time <= time && LetThroughAt(states, n, m, time)
  {
    hide Step;
    hide LetThroughAt;
    RunInv(cfg, states, events, n);
    EntriesDated(cfg, states, events, n);
    EntriesKept(cfg, states, events, n);
    StepOneNew(states[n], cfg, events[n]);
    ForgottenLast(states[n], states[n + 1], i);
    var entries, e := states[n].entries, states[n].entries[i].value;
    MacsCount(entries);
    macs := Macs(entries) - {e.mac};
    assert e.mac in Macs(entries);
    forall m | m in macs
      ensures exists time :: e.time <= time && LetThroughAt(states, n, m, time)
    {
      var j :| 0 <= j < |entries| && entries[j].Some? && entries[j].value.mac == m;
      assert e.time <= entries[j].value.time && LetThroughAt(states, n, m, entries[j].value.time);
    }
  }

  lemma {:induction false} EntriesKept(cfg: Config, states: seq<Table>, events: seq<Event>, n: nat)
    requires Run(cfg, states, events) && n < |states|
    ensures |states[n].entries| == 2048
  {
    hide Step;
    if n > 0 {
      EntriesKept(cfg, states, events, n - 1);
      StepTime(states[n - 1], cfg, events[n - 1]);
    }
  }
}
