/**
 * When a unit of a reliable channel goes out again: as soon as the resend time has passed, and not
 * before (renet2/src/channel/reliable.rs, `get_packets_to_send`).
 */
module Resending {
  import opened Base
  import opened Sums
  import opened Slicing
  import opened ReliableSending
  import opened SendPasses
  import opened Progress
  import Endpoints

  /** When the unit last went out. */
  function LastSent(s: Sender, u: Unit): Option<nat>
    requires u.id in s.unacked
  {
    match s.unacked[u.id]
    case Small(_, last) => last
    case Sliced(_, _, _, _, _, last) => if u.Part? && u.index < |last| then last[u.index] else None
  }

  /** A unit may go out exactly when it is outstanding and its resend time, if it went out before, has passed. */
  lemma DueExactly(s: Sender, u: Unit, now: nat)
    requires Inv(s)
    ensures Due(s, u, now) <==>
              && u in Outstanding(s)
              && (LastSent(s, u).Some? ==> LastSent(s, u).value + s.resendTime <= now)
  {
    hide Count;
    if u in Outstanding(s) {
      assert WellKept(s.unacked[u.id]);
    }
  }

  /** When nothing has gone out for the resend time, everything outstanding is due. */
  lemma DueAfterWaiting(s: Sender, t: nat, now: nat)
    requires Inv(s) && SentBefore(s, t) && t + s.resendTime <= now
    ensures AllDue(s, now)
  {
    forall u | u in Outstanding(s)
      ensures Due(s, u, now)
    {
      DueExactly(s, u, now);
    }
  }

  /** A pass sends nothing whose resend time has not passed. */
  lemma NotBeforeTime(s: Sender, s': Sender, packets: seq<Packet>, sequence: nat, budget: nat, left: nat, now: nat,
                      u: Unit)
    requires Inv(s) && SendPass(s, s', packets, sequence, budget, left, now) && u in Units(packets)
    ensures u in Outstanding(s) && (LastSent(s, u).Some? ==> LastSent(s, u).value + s.resendTime <= now)
  {
    hide Inv;
    hide PacketsOk;
    hide TimersOk;
    hide NoRepeat;
    hide Due;
    DueExactly(s, u, now);
  }

  /** What is due and stays behind is what the budget does not cover. */
  lemma LeftBehind(s: Sender, s': Sender, packets: seq<Packet>, sequence: nat, budget: nat, left: nat, now: nat,
                   u: Unit)
    requires Inv(s) && SendPass(s, s', packets, sequence, budget, left, now)
    requires u in Outstanding(s) && u !in Units(packets)
    requires LastSent(s, u).Some? ==> LastSent(s, u).value + s.resendTime <= now
    ensures left < if u.Whole? then |s.unacked[u.id].message| else SLICE_SIZE
  {
    DueExactly(s, u, now);
    NeedIsASlice(s, u);
    hide Inv;
    hide PacketsOk;
    hide TimersOk;
    hide NoRepeat;
    hide Due;
  }

  /** A pass sets the timers of what it sends, and no others. */
  lemma PassTimers(s: Sender, s': Sender, packets: seq<Packet>, sequence: nat, budget: nat, left: nat, now: nat,
                   u: Unit)
    requires Inv(s) && SendPass(s, s', packets, sequence, budget, left, now) && u in Outstanding(s)
    ensures u in Outstanding(s') && LastSent(s', u) == if u in Units(packets) then Some(now) else LastSent(s, u)
  {
    PassStays(s, s', packets, sequence, budget, left, now);
    assert WellKept(s.unacked[u.id]);
    hide Inv;
    hide PacketsOk;
    hide NoRepeat;
    hide Count;
  }

  // ----- The time since a unit went out

  /** The unit is not outstanding any more, or went out at `t` or later. */
  ghost predicate SentSince(s: Sender, u: Unit, t: nat) {
    u.id < s.nextId && (u in Outstanding(s) ==> LastSent(s, u).Some? && t <= LastSent(s, u).value)
  }

  /** Timers stay as they are; what is new has none. */
  ghost predicate Rests(s: Sender, s': Sender) {
    && s'.resendTime == s.resendTime && s.nextId <= s'.nextId
    && forall u :: u in Outstanding(s') ==>
         if u.id < s.nextId then u in Outstanding(s) && LastSent(s', u) == LastSent(s, u) else LastSent(s', u).None?
  }

  lemma RestsSelf(s: Sender)
    requires Inv(s)
    ensures Rests(s, s)
  {
    hide WellKept;
  }

  lemma RestsTwice(s: Sender, r: Sender, t: Sender)
    requires Rests(s, r) && Rests(r, t)
    ensures Rests(s, t)
  {
    hide Outstanding;
    hide LastSent;
  }

  lemma SinceRests(s: Sender, s': Sender, u: Unit, t: nat)
    requires SentSince(s, u, t) && Rests(s, s')
    ensures SentSince(s', u, t)
  {
    hide Outstanding;
    hide LastSent;
  }

  lemma DueRests(s: Sender, s': Sender, now: nat)
    requires Inv(s) && Inv(s') && AllDue(s, now) && Rests(s, s')
    ensures AllDue(s', now)
  {
    hide Inv;
    hide Outstanding;
    hide LastSent;
    hide Due;
    forall u | u in Outstanding(s')
      ensures Due(s', u, now)
    {
      DueExactly(s, u, now);
      DueExactly(s', u, now);
    }
  }

  lemma DueLater(s: Sender, now: nat, later: nat)
    requires Inv(s) && AllDue(s, now) && now <= later
    ensures AllDue(s, later)
  {
    hide Inv;
    hide Outstanding;
    hide LastSent;
    hide Due;
    forall u | u in Outstanding(s)
      ensures Due(s, u, later)
    {
      DueExactly(s, u, now);
      DueExactly(s, u, later);
    }
  }

  lemma SendRests(s: Sender, m: Bytes)
    requires Inv(s)
    ensures Rests(s, SendMessage(s, m).0)
  {
    hide WellKept;
  }

  lemma AckMessagesRests(s: Sender, ids: seq<nat>)
    requires Inv(s) && forall id :: id in ids ==> MessageAckOk(s, id)
    ensures Rests(s, AckMessages(s, ids))
  {
    hide WellKept;
  }

  lemma AckSliceRests(s: Sender, id: nat, i: nat)
    requires Inv(s) && SliceAckOk(s, id, i)
    ensures Rests(s, AckSlice(s, id, i))
  {
    hide Count;
  }

  lemma PassSince(s: Sender, s': Sender, packets: seq<Packet>, sequence: nat, budget: nat, left: nat, now: nat,
                  u: Unit, t: nat)
    requires Inv(s) && SendPass(s, s', packets, sequence, budget, left, now)
    ensures u in Units(packets) ==> SentSince(s', u, now)
    ensures SentSince(s, u, t) && t <= now ==> SentSince(s', u, t)
    ensures SentSince(s, u, t) && u in Units(packets) ==> t + s.resendTime <= now
  {
    PassStays(s, s', packets, sequence, budget, left, now);
    if u in Units(packets) {
      NotBeforeTime(s, s', packets, sequence, budget, left, now, u);
      NeedIsASlice(s, u);
    }
    if u in Outstanding(s) {
      PassTimers(s, s', packets, sequence, budget, left, now, u);
    }
    hide Inv;
    hide Outstanding;
    hide LastSent;
    hide PacketsOk;
    hide TimersOk;
  }
}

/** The same over runs of both ends. */
module ResendRuns {
  import opened Base
  import opened AckRanges
  import opened SendPasses
  import opened ChannelTurns
  import opened Endpoints
  import opened Connections
  import opened Delivery
  import opened Resending
  import GreedyPasses
  import P = Progress
  import S = ReliableSending
  import L = ReliableLinks

  lemma AckOneRests(e: Endpoint, q: nat, ch: nat)
    requires Endpoints.Inv(e) && q in e.sent && ch in e.senders
    ensures ch in AckOne(e, q).senders && Rests(e.senders[ch], AckOne(e, q).senders[ch])
  {
    hide P.Outstanding;
    hide Rests;
    hide S.MessageAckOk;
    hide S.SliceAckOk;
    InvParts(e, q);
    SenderOk(e, ch);
    hide Endpoints.Inv;
    hide S.Inv;
    hide S.SentBefore;
    RestsSelf(e.senders[ch]);
    match e.sent[q].info
    case ReliableMessages(c, ids) => AckMessagesRests(e.senders[c], ids);
    case ReliableSliceMessage(c, id, i) => AckSliceRests(e.senders[c], id, i);
    case _ =>
  }

  lemma {:induction false} AckAllRests(e: Endpoint, qs: seq<nat>, ch: nat)
    requires Endpoints.Inv(e) && Ascending(qs) && (forall q :: q in qs ==> q in e.sent) && ch in e.senders
    ensures ch in AckAll(e, qs).senders && Rests(e.senders[ch], AckAll(e, qs).senders[ch])
    decreases |qs|
  {
    hide Endpoints.Inv;
    hide Rests;
    hide AckOne;
    if qs == [] {
      AckAllDone(e);
      SenderOk(e, ch);
      RestsSelf(e.senders[ch]);
    } else {
      AckAllStep(e, qs);
      AckOneRests(e, qs[0], ch);
      var e1 := AckOne(e, qs[0]);
      AckAllRests(e1, qs[1..], ch);
      hide AckAll;
      RestsTwice(e.senders[ch], e1.senders[ch], AckAll(e1, qs[1..]).senders[ch]);
    }
  }

  /** Only making packets touches a timer. */
  lemma ActRests(x: L.Peer, y: L.Peer, a: L.Action, x': L.Peer, ch: nat)
    requires L.Joined(x, y) && L.Act(x, y, a, x') && !a.Transmit? && ch in x.e.senders
    ensures ch in x'.e.senders && Rests(x.e.senders[ch], x'.e.senders[ch])
  {
    hide L.Joined;
    hide Rests;
    hide Normal;
    hide Added;
    hide ProcessMessages;
    hide AckAll;
    hide Has;
    EndFacts(x, y, ch);
    hide Endpoints.Inv;
    hide S.Inv;
    hide S.SendMessage;
    RestsSelf(x.e.senders[ch]);
    match a
    case Send(c, m) =>
      if c == ch {
        SendRests(x.e.senders[ch], m);
      }
    case Deliver(q, pending, acks) =>
      if y.out[q].Ack? {
        AckAllRests(x.e.(pendingAcks := pending), acks, ch);
      }
    case _ =>
  }

  /** The sending end makes no packets from step `i` up to step `j`. */
  ghost predicate Idle(steps: seq<Step>, i: nat, j: nat, d: Direction) {
    forall k :: i <= k < j && k < |steps| && Sends(steps[k], d) ==> !steps[k].action.Transmit?
  }

  lemma {:induction false} IdleRests(states: seq<System>, steps: seq<Step>, i: nat, j: nat, d: Direction, ch: nat)
    requires Run(states, steps) && i <= j < |states| && Idle(steps, i, j, d) && ch in Sending(states[i], d).p.e.senders
    ensures ch in Sending(states[j], d).p.e.senders
    ensures Rests(Sending(states[i], d).p.e.senders[ch], Sending(states[j], d).p.e.senders[ch])
    decreases j
  {
    hide Init;
    hide Act;
    hide L.Act;
    hide L.Joined;
    hide Loosely;
    hide Rests;
    EitherWay(states, steps, i, d);
    EndFacts(Sending(states[i], d).p, Receiving(states[i], d).p, ch);
    hide Endpoints.Inv;
    var s := Sending(states[i], d).p.e.senders[ch];
    if i == j {
      RestsSelf(s);
    } else {
      IdleRests(states, steps, i, j - 1, d, ch);
      EitherWay(states, steps, j - 1, d);
      assert Next(states[j - 1], steps[j - 1], states[j]);
      StepIs(states[j - 1], steps[j - 1], states[j], d);
      var x, x' := Sending(states[j - 1], d), Sending(states[j], d);
      if Sends(steps[j - 1], d) {
        Projected(x, Receiving(states[j - 1], d), steps[j - 1].action, x');
        if x'.p != x.p {
          ActRests(x.p, Receiving(states[j - 1], d).p, Project(steps[j - 1].action), x'.p, ch);
          RestsTwice(s, x.p.e.senders[ch], x'.p.e.senders[ch]);
        }
      }
    }
  }

  lemma TimersPast(x: L.Peer, y: L.Peer, ch: nat)
    requires L.Joined(x, y) && ch in x.e.senders
    ensures S.Inv(x.e.senders[ch]) && S.SentBefore(x.e.senders[ch], x.e.time)
  {
    hide L.Link;
    hide L.Network;
    hide S.Inv;
    hide S.SentBefore;
    hide LedgerOk;
  }

  /**
   * Waiting makes everything due: once the resend time has passed without a packet being made, every
   * unit outstanding may go out again, whatever arrived meanwhile.
   */
  lemma WaitingMakesDue(states: seq<System>, steps: seq<Step>, i: nat, j: nat, d: Direction, ch: nat)
    requires Run(states, steps) && i <= j < |states| && Idle(steps, i, j, d) && ch in Sending(states[i], d).p.e.senders
    requires var x := Sending(states[i], d).p.e; x.time + x.senders[ch].resendTime <= Sending(states[j], d).p.e.time
    ensures ch in Sending(states[j], d).p.e.senders
    ensures P.AllDue(Sending(states[j], d).p.e.senders[ch], Sending(states[j], d).p.e.time)
  {
    hide Run;
    hide L.Joined;
    hide Loosely;
    hide Rests;
    hide P.AllDue;
    hide S.Inv;
    hide S.SentBefore;
    var x, x' := Sending(states[i], d).p, Sending(states[j], d).p;
    EitherWay(states, steps, i, d);
    EitherWay(states, steps, j, d);
    TimersPast(x, Receiving(states[i], d).p, ch);
    IdleRests(states, steps, i, j, d, ch);
    TimersPast(x', Receiving(states[j], d).p, ch);
    DueAfterWaiting(x.e.senders[ch], x.e.time, x'.e.time);
    DueRests(x.e.senders[ch], x'.e.senders[ch], x'.e.time);
  }

  /**
   * So the rounds that deliver are there for the asking: packets made after waiting for the resend
   * time, with a slice's worth of budget left at the first turn of the channel, start one.
   */
  lemma WaitingStarts(states: seq<System>, steps: seq<Step>, i: nat, j: nat, d: Direction, ch: nat, k: nat)
    requires Run(states, steps) && i <= j < |steps| && Idle(steps, i, j, d) && ch in Sending(states[i], d).p.e.senders
    requires var x := Sending(states[i], d).p.e; x.time + x.senders[ch].resendTime <= Sending(states[j], d).p.e.time
    requires Sends(steps[j], d) && steps[j].action.Transmit? && FirstTurn(steps[j].action, ch, k)
    requires k < |steps[j].action.stages| && steps[j].action.stages[k].available >= SLICE_SIZE
    ensures Starts(Sending(states[j], d), steps[j].action, ch, k)
  {
    hide Init;
    hide Act;
    hide P.AllDue;
    WaitingMakesDue(states, steps, i, j, d, ch);
    assert Next(states[j], steps[j], states[j + 1]);
    StepIs(states[j], steps[j], states[j + 1], d);
    var a, x := steps[j].action, Sending(states[j], d);
    BothTransmit(x, Receiving(states[j], d), a, Sending(states[j + 1], d));
    TurnsAdd(a.order, a.stages, x.p.e.sequence, x.p.e.time, k);
  }

  /** The channel has its first turn at place `k` of the order. */
  predicate FirstTurn(a: Action, ch: nat, k: nat)
    requires a.Transmit?
  {
    k < |a.order| && a.order[k] == Reliable(ch) && forall i :: 0 <= i < k ==> a.order[i] != Reliable(ch)
  }

  lemma TurnsAdd(order: seq<ChannelOrder>, stages: seq<Stage>, first: nat, now: nat, k: nat)
    requires Turns(order, stages, first, now) && k < |order|
    ensures |stages| == |order| + 1 && |stages[k].packets| <= |stages[k + 1].packets|
  {
    hide SendPass;
    hide GreedyPasses.Greedy;
    hide GreedyPasses.Tight;
    hide Passes;
    assert Turn(order[k], stages[k], stages[k + 1], first, now);
  }

  // ----- Not too soon

  /** A turn of the channel, as a pass. */
  lemma TurnIsPass(order: seq<ChannelOrder>, stages: seq<Stage>, first: nat, now: nat, k: nat, ch: nat)
    requires Turns(order, stages, first, now) && k < |order| && order[k] == Reliable(ch)
    ensures ch in stages[k].senders && ch in stages[k + 1].senders
    ensures |stages[k].packets| <= |stages[k + 1].packets|
    ensures SendPass(stages[k].senders[ch], stages[k + 1].senders[ch], stages[k + 1].packets[|stages[k].packets|..],
                     first + |stages[k].packets|, stages[k].available, stages[k + 1].available, now)
  {
    hide SendPass;
    hide GreedyPasses.Greedy;
    hide GreedyPasses.Tight;
    assert Turn(order[k], stages[k], stages[k + 1], first, now);
  }

  lemma TurnOfOthers(order: seq<ChannelOrder>, stages: seq<Stage>, first: nat, now: nat, k: nat, ch: nat)
    requires Turns(order, stages, first, now) && k < |order| && order[k] != Reliable(ch) && ch in stages[k].senders
    ensures ch in stages[k + 1].senders && stages[k + 1].senders[ch] == stages[k].senders[ch]
  {
    hide SendPass;
    hide GreedyPasses.Greedy;
    hide GreedyPasses.Tight;
    hide Passes;
    assert Turn(order[k], stages[k], stages[k + 1], first, now);
  }

  /** From turn `k` to turn `l` the unit stays sent since `t`, and the channel keeps its accounts. */
  lemma {:induction false} TurnsSince(order: seq<ChannelOrder>, stages: seq<Stage>, first: nat, now: nat, k: nat,
                                      l: nat, ch: nat, u: Unit, t: nat)
    requires Turns(order, stages, first, now) && k <= l <= |order| && ch in stages[k].senders && t <= now
    requires S.Inv(stages[k].senders[ch])
    ensures ch in stages[l].senders && S.Inv(stages[l].senders[ch])
    ensures stages[l].senders[ch].resendTime == stages[k].senders[ch].resendTime
    ensures SentSince(stages[k].senders[ch], u, t) ==> SentSince(stages[l].senders[ch], u, t)
    decreases l
  {
    hide Turns;
    hide S.Inv;
    hide SentSince;
    TurnsLength(order, stages, first, now);
    if k < l {
      TurnsSince(order, stages, first, now, k, l - 1, ch, u, t);
      if order[l - 1] == Reliable(ch) {
        TurnIsPass(order, stages, first, now, l - 1, ch);
        var s, s' := stages[l - 1].senders[ch], stages[l].senders[ch];
        var more := stages[l].packets[|stages[l - 1].packets|..];
        PassSince(s, s', more, first + |stages[l - 1].packets|, stages[l - 1].available, stages[l].available, now, u,
                  t);
        SendPassInv(s, s', more, first + |stages[l - 1].packets|, stages[l - 1].available, stages[l].available, now);
      } else {
        TurnOfOthers(order, stages, first, now, l - 1, ch);
      }
    }
  }

  /** A packet of turn `k` carries the unit. */
  ghost predicate GoesOut(a: Action, ch: nat, k: nat, u: Unit) {
    a.Transmit? && k < |a.order| && a.order[k] == Reliable(ch) && u in PassUnits(a, k)
  }

  lemma TransmitSince(x: Node, y: Node, a: Action, x': Node, ch: nat, u: Unit, t: nat)
    requires L.Joined(x.p, y.p) && Act(x, y, a, x') && a.Transmit? && ch in x.p.e.senders && t <= x.p.e.time
    ensures ch in x'.p.e.senders && x'.p.e.senders[ch].resendTime == x.p.e.senders[ch].resendTime
    ensures SentSince(x.p.e.senders[ch], u, t) ==> SentSince(x'.p.e.senders[ch], u, t)
  {
    hide Act;
    hide L.Joined;
    hide L.Transmits;
    hide SentSince;
    hide Turns;
    BothTransmit(x, y, a, x');
    EndFacts(x.p, y.p, ch);
    hide Endpoints.Inv;
    hide S.Inv;
    TurnsSince(a.order, a.stages, x.p.e.sequence, x.p.e.time, 0, |a.order|, ch, u, t);
  }

  /** What a turn of the channel sends has gone out now, and not within the resend time before. */
  lemma TurnSince(order: seq<ChannelOrder>, stages: seq<Stage>, first: nat, now: nat, k: nat, ch: nat, u: Unit, t: nat)
    requires Turns(order, stages, first, now) && k < |order| && order[k] == Reliable(ch) && ch in stages[k].senders
    requires |stages[k].packets| <= |stages[k + 1].packets| && S.Inv(stages[k].senders[ch])
    requires u in Units(stages[k + 1].packets[|stages[k].packets|..])
    ensures ch in stages[k + 1].senders && S.Inv(stages[k + 1].senders[ch])
    ensures SentSince(stages[k + 1].senders[ch], u, now)
    ensures SentSince(stages[k].senders[ch], u, t) ==> t + stages[k].senders[ch].resendTime <= now
  {
    TurnIsPass(order, stages, first, now, k, ch);
    hide Turns;
    hide Units;
    hide SentSince;
    var s, s' := stages[k].senders[ch], stages[k + 1].senders[ch];
    var more, seqs := stages[k + 1].packets[|stages[k].packets|..], first + |stages[k].packets|;
    PassSince(s, s', more, seqs, stages[k].available, stages[k + 1].available, now, u, t);
    SendPassInv(s, s', more, seqs, stages[k].available, stages[k + 1].available, now);
  }

  /** Units that go out have done so now, and not within the resend time before. */
  lemma GoesOutSince(x: Node, y: Node, a: Action, x': Node, ch: nat, k: nat, u: Unit, t: nat)
    requires L.Joined(x.p, y.p) && Act(x, y, a, x') && GoesOut(a, ch, k, u) && ch in x.p.e.senders && t <= x.p.e.time
    ensures ch in x'.p.e.senders && SentSince(x'.p.e.senders[ch], u, x.p.e.time)
    ensures SentSince(x.p.e.senders[ch], u, t) ==> t + x.p.e.senders[ch].resendTime <= x.p.e.time
  {
    hide Act;
    hide L.Joined;
    hide L.Transmits;
    hide SentSince;
    hide Turns;
    hide Units;
    BothTransmit(x, y, a, x');
    EndFacts(x.p, y.p, ch);
    hide Endpoints.Inv;
    hide S.Inv;
    var order, stages, first, now := a.order, a.stages, x.p.e.sequence, x.p.e.time;
    TurnsLength(order, stages, first, now);
    TurnsSince(order, stages, first, now, 0, k, ch, u, t);
    TurnsAdd(order, stages, first, now, k);
    TurnSince(order, stages, first, now, k, ch, u, t);
    TurnsSince(order, stages, first, now, k + 1, |order|, ch, u, now);
  }

  lemma {:induction false} StaysSince(states: seq<System>, steps: seq<Step>, i: nat, j: nat, d: Direction, ch: nat,
                                      u: Unit, t: nat)
    requires Run(states, steps) && i <= j < |states| && ch in Sending(states[i], d).p.e.senders
    requires t <= Sending(states[i], d).p.e.time && SentSince(Sending(states[i], d).p.e.senders[ch], u, t)
    ensures ch in Sending(states[j], d).p.e.senders && t <= Sending(states[j], d).p.e.time
    ensures Sending(states[j], d).p.e.senders[ch].resendTime == Sending(states[i], d).p.e.senders[ch].resendTime
    ensures SentSince(Sending(states[j], d).p.e.senders[ch], u, t)
    decreases j
  {
    hide Init;
    hide Act;
    hide L.Act;
    hide L.Joined;
    hide Loosely;
    hide SentSince;
    if i < j {
      StaysSince(states, steps, i, j - 1, d, ch, u, t);
      Monotone(states, steps, j - 1, j, d);
      EitherWay(states, steps, j - 1, d);
      assert Next(states[j - 1], steps[j - 1], states[j]);
      StepIs(states[j - 1], steps[j - 1], states[j], d);
      var x, y, x' := Sending(states[j - 1], d), Receiving(states[j - 1], d), Sending(states[j], d);
      var a := steps[j - 1].action;
      if Sends(steps[j - 1], d) {
        if a.Transmit? {
          TransmitSince(x, y, a, x', ch, u, t);
        } else {
          Projected(x, y, a, x');
          if x'.p != x.p {
            ActRests(x.p, y.p, Project(a), x'.p, ch);
            SinceRests(x.p.e.senders[ch], x'.p.e.senders[ch], u, t);
          }
        }
      }
    }
  }

  /** In no run does a unit go out twice within the resend time. */
  lemma NotTwiceTooSoon(states: seq<System>, steps: seq<Step>, i: nat, k: nat, j: nat, l: nat, d: Direction, ch: nat,
                        u: Unit)
    requires Run(states, steps) && i < j < |steps| && Sends(steps[i], d) && Sends(steps[j], d)
    requires ch in Sending(states[i], d).p.e.senders
    requires GoesOut(steps[i].action, ch, k, u) && GoesOut(steps[j].action, ch, l, u)
    ensures Sending(states[i], d).p.e.time + Sending(states[i], d).p.e.senders[ch].resendTime <=
              Sending(states[j], d).p.e.time
  {
    hide Init;
    hide Act;
    hide L.Joined;
    hide Loosely;
    hide SentSince;
    hide GoesOut;
    var x, x' := Sending(states[i], d), Sending(states[i + 1], d);
    EitherWay(states, steps, i, d);
    assert Next(states[i], steps[i], states[i + 1]);
    StepIs(states[i], steps[i], states[i + 1], d);
    Monotone(states, steps, i, i + 1, d);
    GoesOutSince(x, Receiving(states[i], d), steps[i].action, x', ch, k, u, x.p.e.time);
    SameResendTime(states, steps, i, d, ch, k, u);
    StaysSince(states, steps, i + 1, j, d, ch, u, x.p.e.time);
    EitherWay(states, steps, j, d);
    assert Next(states[j], steps[j], states[j + 1]);
    StepIs(states[j], steps[j], states[j + 1], d);
    GoesOutSince(Sending(states[j], d), Receiving(states[j], d), steps[j].action, Sending(states[j + 1], d), ch, l, u,
                 x.p.e.time);
  }

  lemma SameResendTime(states: seq<System>, steps: seq<Step>, i: nat, d: Direction, ch: nat, k: nat, u: Unit)
    requires Run(states, steps) && i < |steps| && Sends(steps[i], d) && ch in Sending(states[i], d).p.e.senders
    requires GoesOut(steps[i].action, ch, k, u)
    ensures ch in Sending(states[i + 1], d).p.e.senders
    ensures Sending(states[i + 1], d).p.e.senders[ch].resendTime == Sending(states[i], d).p.e.senders[ch].resendTime
  {
    hide Init;
    hide Act;
    hide L.Joined;
    hide Loosely;
    EitherWay(states, steps, i, d);
    assert Next(states[i], steps[i], states[i + 1]);
    StepIs(states[i], steps[i], states[i + 1], d);
    var x := Sending(states[i], d);
    TransmitSince(x, Receiving(states[i], d), steps[i].action, Sending(states[i + 1], d), ch, u, x.p.e.time);
  }
}
