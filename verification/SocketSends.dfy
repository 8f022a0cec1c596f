/**
 * What goes out to the connections of a socket server, and sessions that fail
 * (renet2_netcode/src/websocket_socket/server/socket.rs and
 * renet2_netcode/src/webtransport_socket/server/socket.rs).
 */
module SocketSends {
  import opened Base
  import opened SocketTables
  import opened SocketRuns

  /**
   * Sending succeeds exactly for a connection that is pending, or accepted with its session alive;
   * only for a session that ended is there a mark.
   */
  lemma SentExactly(s: Sockets, idx: nat, packet: Bytes, gone: set<nat>)
    requires idx !in s.pending || idx !in s.clients
    ensures var (s', ok) := Send(s, idx, packet, gone);
            && (ok <==> idx in s.pending || (idx in s.clients && idx !in gone))
            && s'.lost == (if idx in s.clients && idx in gone && s.losesOnSend then s.lost + {idx} else s.lost)
            && (forall j :: Outbox(s', j) ==
                              if j == idx && idx in s.clients && ok then Outbox(s, j) + [packet] else Outbox(s, j))
  {
  }

  // ----- What is sent to a connection

  /** The packet that the event sends to the connection, if it does. */
  function SentTo(w: World, event: Event, idx: nat): (ps: seq<Bytes>)
    ensures |ps| <= 1
  {
    match event
    case Accept(_, packet, _) => if w.handed == Some(idx) then [packet] else []
    case Deny(Some(packet), _) => if w.handed == Some(idx) then [packet] else []
    case SendTo(i, packet, _) => if i == idx then [packet] else []
    case _ => []
  }

  /** The session of the connection is alive whenever that matters. */
  predicate Alive(event: Event, idx: nat) {
    match event
    case BeginUpdate(gone) => idx !in gone
    case Accept(_, _, gone) => idx !in gone
    case Deny(_, gone) => idx !in gone
    case SendTo(_, _, gone) => idx !in gone
    case _ => true
  }

  function Opt(b: Option<Bytes>): seq<Bytes> {
    if b.Some? then [b.value] else []
  }

  /** What the connection is owed once `ps` has been sent to it. */
  function OwedThen(s: Sockets, idx: nat, owed: seq<Bytes>, ps: seq<Bytes>): seq<Bytes> {
    if idx in s.clients then owed + ps else if idx in s.pending && owed == [] then ps else owed
  }

  /** What the connection has to get: the first answer while it is pending, then everything. */
  function Owed(states: seq<World>, events: seq<Event>, n: nat, idx: nat): seq<Bytes>
    requires n <= |events| < |states|
  {
    if n == 0 then []
    else
      OwedThen(states[n - 1].s, idx, Owed(states, events, n - 1, idx), SentTo(states[n - 1], events[n - 1], idx))
  }

  /** What a session is owed is with its writer or, while it is pending, kept for it. */
  ghost predicate Paid(s: Sockets, idx: nat, owed: seq<Bytes>) {
    && (idx in s.clients ==> idx !in s.pending && Outbox(s, idx) == owed)
    && (idx in s.pending ==> Outbox(s, idx) == [] && Opt(s.pending[idx].buffered) == owed)
    && (idx >= s.nextIdx || Waits(s, idx) ==> Outbox(s, idx) == [] && owed == [])
  }

  /** What an update does to a connection: it stays as it is, or is accepted and gets its answer, or goes. */
  ghost predicate Updated(s: Sockets, s': Sockets, idx: nat, gone: set<nat>) {
    if idx in s.pending && idx !in s.clients then
      || (&& idx in s'.pending && s'.pending[idx] == s.pending[idx] && idx !in s'.clients
          && Outbox(s', idx) == Outbox(s, idx))
      || (&& idx !in s'.pending && idx in s'.clients
          && (idx !in gone ==> Outbox(s', idx) == Outbox(s, idx) + Opt(s.pending[idx].buffered)))
      || (idx !in s'.pending && idx !in s'.clients)
    else
      && (idx in s'.clients <==> idx in s.clients) && (idx in s.pending <==> idx in s'.pending)
      && Outbox(s', idx) == Outbox(s, idx)
  }

  lemma TakeInUpdates(s: Sockets, c: Completion, gone: set<nat>, idx: nat)
    requires forall k :: k in s.pending ==> k !in s.clients
    ensures Updated(s, TakeIn(s, c, gone).0, idx, gone)
    ensures forall k :: k in TakeIn(s, c, gone).0.pending ==> k !in TakeIn(s, c, gone).0.clients
  {
    if c.Success? && c.idx in s.pending && Points(s, c.id, c.idx) && s.pending[c.idx].buffered.Some? {
      var s2 := s.(pending := s.pending - {c.idx}, clients := s.clients[c.idx := c.id]);
      var packet := s.pending[c.idx].buffered.value;
      SendOnly(s2, c.idx, packet, gone);
      SentExactly(s2, c.idx, packet, gone);
    }
    hide Send;
  }

  lemma {:induction false} PreupdateUpdates(s: Sockets, gone: set<nat>, idx: nat)
    requires forall k :: k in s.pending ==> k !in s.clients
    ensures Updated(s, Preupdate(s, gone).0, idx, gone)
    decreases |s.completions|
  {
    hide TakeIn;
    if s.completions != [] {
      var rest := s.(completions := s.completions[1..]);
      TakeInQueue(rest, s.completions[0], gone);
      TakeInUpdates(rest, s.completions[0], gone, idx);
      PreupdateUpdates(TakeIn(rest, s.completions[0], gone).0, gone, idx);
    }
  }

  lemma NotBoth(w: World)
    requires Inv(w)
    ensures forall k :: k in w.s.pending ==> k !in w.s.clients
    ensures forall k :: k in w.s.pending || k in w.s.clients ==> k < w.s.nextIdx && !Waits(w.s, k)
  {
  }

  lemma SendKeeps(s: Sockets, to: nat, packet: Bytes, gone: set<nat>, idx: nat, owed: seq<Bytes>)
    requires Paid(s, idx, owed) && idx !in gone && (idx in s.pending || idx in s.clients ==> !Waits(s, idx))
    requires idx in s.pending || idx in s.clients ==> idx < s.nextIdx
    ensures Paid(Send(s, to, packet, gone).0, idx, OwedThen(s, idx, owed, if to == idx then [packet] else []))
  {
  }

  lemma AcceptedKeeps(s: Sockets, id: nat, to: nat, idx: nat, owed: seq<Bytes>)
    requires Paid(s, idx, owed)
    ensures var s' := ConnectionAccepted(s, id, to);
            && Paid(s', idx, owed) && s'.clients == s.clients && s'.pending.Keys == s.pending.Keys
            && s'.nextIdx == s.nextIdx && s'.requests == s.requests
  {
  }

  lemma SendPays(w: World, event: Event, w': World, idx: nat, owed: seq<Bytes>)
    requires Inv(w) && Next(w, event, w') && Paid(w.s, idx, owed) && Alive(event, idx)
    requires event.Accept? || event.Deny? || event.SendTo?
    ensures Paid(w'.s, idx, OwedThen(w.s, idx, owed, SentTo(w, event, idx)))
  {
    NotBoth(w);
    hide Inv;
    hide Send;
    hide ConnectionAccepted;
    match event
    case Accept(id, packet, gone) =>
      AcceptedKeeps(w.s, id, w.handed.value, idx, owed);
      SendKeeps(ConnectionAccepted(w.s, id, w.handed.value), w.handed.value, packet, gone, idx, owed);
    case Deny(answer, gone) =>
      if answer.Some? {
        SendKeeps(w.s, w.handed.value, answer.value, gone, idx, owed);
      } else {
        assert owed + [] == owed;
      }
    case SendTo(to, packet, gone) =>
      SendKeeps(w.s, to, packet, gone, idx, owed);
  }

  lemma ReceivePays(w: World, capacity: nat, w': World, idx: nat, owed: seq<Bytes>)
    requires Inv(w) && Next(w, Receive(capacity), w') && Paid(w.s, idx, owed)
    ensures Paid(w'.s, idx, owed)
  {
    NotBoth(w);
    hide Inv;
    hide Scan;
    hide TakeRequest;
    var k := RequestFound(w.s, capacity);
    var (s1, request) := TakeRequest(w.s, capacity);
    if request.Some? {
      assert w.s.requests[k].0 == request.value.0;
      assert Waits(w.s, request.value.0);
      assert forall j :: 0 <= j < |w'.s.requests| ==> w'.s.requests[j] == w.s.requests[j + k + 1];
      assert Waits(w'.s, idx) ==> Waits(w.s, idx);
    } else {
      var mid := ScanFinds(s1, s1.recvIndex, capacity);
      hide Resumes;
      hide SearchedAt;
    }
  }

  lemma OtherPays(w: World, event: Event, w': World, idx: nat, owed: seq<Bytes>)
    requires Inv(w) && Next(w, event, w') && Paid(w.s, idx, owed) && Alive(event, idx)
    requires !event.Accept? && !event.Deny? && !event.SendTo? && !event.Receive?
    ensures Paid(w'.s, idx, owed)
  {
    NotBoth(w);
    hide Inv;
    hide Preupdate;
    hide Cleared;
    hide Paid;
    match event
    case Arrive(packet) => ArrivalPays(w.s, packet, idx, owed);
    case BeginUpdate(gone) => UpdatePays(w, gone, w', idx, owed);
    case EndUpdate(finished) => ClearedPays(w.s, Gone(w.s, finished), idx, owed);
    case _ => SamePays(w.s, w'.s, idx, owed);
  }

  lemma SamePays(s: Sockets, s': Sockets, idx: nat, owed: seq<Bytes>)
    requires Paid(s, idx, owed) && s'.pending == s.pending && s'.clients == s.clients && s'.outboxes == s.outboxes
    requires s'.nextIdx == s.nextIdx && s'.requests == s.requests
    ensures Paid(s', idx, owed)
  {
  }

  lemma ClearedPays(s: Sockets, gone: set<nat>, idx: nat, owed: seq<Bytes>)
    requires Paid(s, idx, owed)
    ensures Paid(Cleared(s, gone), idx, owed)
  {
    hide Remaining;
    hide Size;
  }

  lemma ArrivalPays(s: Sockets, packet: Bytes, idx: nat, owed: seq<Bytes>)
    requires Paid(s, idx, owed) && forall k :: k in s.pending || k in s.clients ==> k < s.nextIdx
    ensures Paid(s.(nextIdx := s.nextIdx + 1, requests := s.requests + [(s.nextIdx, packet)]), idx, owed)
  {
    hide Outbox;
    var s' := s.(nextIdx := s.nextIdx + 1, requests := s.requests + [(s.nextIdx, packet)]);
    assert forall j :: 0 <= j < |s.requests| ==> s'.requests[j] == s.requests[j];
    assert Waits(s', idx) ==> Waits(s, idx) || idx == s.nextIdx;
    assert forall j :: Outbox(s', j) == Outbox(s, j) by {
      SameOutboxes(s, s');
    }
  }

  lemma SameOutboxes(s: Sockets, s': Sockets)
    requires s'.outboxes == s.outboxes
    ensures forall j :: Outbox(s', j) == Outbox(s, j)
  {
  }

  lemma UpdatePays(w: World, gone: set<nat>, w': World, idx: nat, owed: seq<Bytes>)
    requires Inv(w) && Next(w, BeginUpdate(gone), w') && Paid(w.s, idx, owed) && idx !in gone
    ensures Paid(w'.s, idx, owed)
  {
    NotBoth(w);
    hide Inv;
    PreupdateUpdates(w.s, gone, idx);
    PreupdateKeeps(w.s, gone);
    hide Preupdate;
  }

  lemma PaidStep(w: World, event: Event, w': World, idx: nat, owed: seq<Bytes>)
    requires Inv(w) && Next(w, event, w') && Paid(w.s, idx, owed) && Alive(event, idx)
    ensures Paid(w'.s, idx, OwedThen(w.s, idx, owed, SentTo(w, event, idx)))
  {
    hide Inv;
    hide Next;
    hide Paid;
    if event.Accept? || event.Deny? || event.SendTo? {
      SendPays(w, event, w', idx, owed);
    } else {
      assert owed + [] == owed;
      if event.Receive? {
        ReceivePays(w, event.capacity, w', idx, owed);
      } else {
        OtherPays(w, event, w', idx, owed);
      }
    }
  }

  lemma {:induction false} AllPaid(states: seq<World>, events: seq<Event>, n: nat, idx: nat)
    requires Run(states, events) && n < |states| && forall k :: 0 <= k < n ==> Alive(events[k], idx)
    ensures Paid(states[n].s, idx, Owed(states, events, n, idx))
  {
    hide Inv;
    hide Next;
    if n > 0 {
      hide Paid;
      AllPaid(states, events, n - 1, idx);
      RunInv(states, events, n - 1);
      PaidStep(states[n - 1], events[n - 1], states[n], idx, Owed(states, events, n - 1, idx));
    }
  }

  /**
   * As long as its session lives, a client gets the first answer it was sent while it was pending and
   * then everything sent to it, in order; a pending client has that first answer waiting.
   */
  lemma SentInOrder(states: seq<World>, events: seq<Event>, n: nat, idx: nat)
    requires Run(states, events) && n < |states| && forall k :: 0 <= k < n ==> Alive(events[k], idx)
    ensures var w := states[n];
            && (idx in w.s.clients ==> Outbox(w.s, idx) == Owed(states, events, n, idx))
            && (idx in w.s.pending ==> Opt(w.s.pending[idx].buffered) == Owed(states, events, n, idx))
  {
    hide Run;
    AllPaid(states, events, n, idx);
  }

  // ----- Sessions that fail

  /** What counts as an internal error when a session is taken in. */
  lemma FaultExactly(s: Sockets, idx: nat, id: nat, gone: set<nat>)
    ensures TakeIn(s, Success(idx, id), gone).1 == SlotOccupied <==>
              idx in s.pending && (id in s.idToIdx ==> s.idToIdx[id] != idx)
    ensures TakeIn(s, Success(idx, id), gone).1 == ResponseMissing <==>
              idx in s.pending && id in s.idToIdx && s.idToIdx[id] == idx && s.pending[idx].buffered == None
  {
  }

  lemma {:induction false} FailuresMarked(s: Sockets, gone: set<nat>, idx: nat)
    requires Failure(idx) in s.completions && Preupdate(s, gone).1 == NoFault
    ensures idx in Preupdate(s, gone).0.lost
    decreases |s.completions|
  {
    hide TakeIn;
    var rest := s.(completions := s.completions[1..]);
    var c := s.completions[0];
    TakeInQueue(rest, c, gone);
    assert s.completions == [c] + s.completions[1..];
    var s1 := TakeIn(rest, c, gone).0;
    FirstFault(s, gone);
    PreupdateKeeps(s1, gone);
    if c == Failure(idx) {
      FailureMarks(rest, idx, gone);
    } else {
      FailuresMarked(s1, gone, idx);
    }
  }

  lemma FailureMarks(s: Sockets, idx: nat, gone: set<nat>)
    ensures idx in TakeIn(s, Failure(idx), gone).0.lost
  {
  }

  lemma FirstFault(s: Sockets, gone: set<nat>)
    requires s.completions != [] && Preupdate(s, gone).1 == NoFault
    ensures var (s1, fault) := TakeIn(s.(completions := s.completions[1..]), s.completions[0], gone);
            && fault == NoFault && Preupdate(s1, gone) == Preupdate(s, gone)
  {
    hide TakeIn;
  }

  /** The session failed, or the connection is over already or marked to be. */
  ghost predicate Failing(w: World, idx: nat) {
    idx < w.s.nextIdx && !Waits(w.s, idx) && (Failure(idx) in w.s.completions || Doomed(w, idx))
  }

  lemma CompletionsStay(w: World, event: Event, w': World, c: Completion)
    requires Next(w, event, w') && c in w.s.completions && !event.BeginUpdate?
    ensures c in w'.s.completions
  {
    hide TryRecv;
    hide Preupdate;
    hide Send;
    match event
    case Receive(capacity) => ReceiveCompletions(w.s, capacity);
    case Accept(id, packet, gone) =>
      SendOnly(ConnectionAccepted(w.s, id, w.handed.value), w.handed.value, packet, gone);
    case Deny(Some(packet), gone) => SendOnly(w.s, w.handed.value, packet, gone);
    case SendTo(to, packet, gone) => SendOnly(w.s, to, packet, gone);
    case _ =>
  }

  lemma ReceiveCompletions(s: Sockets, capacity: nat)
    ensures TryRecv(s, capacity).0.completions == s.completions
  {
    var k := RequestFound(s, capacity);
    var (s1, request) := TakeRequest(s, capacity);
    if request.None? {
      ScanSame(s1, s1.recvIndex, capacity);
    }
    hide TakeRequest;
    hide Scan;
  }

  lemma {:induction false} FailingOn(states: seq<World>, events: seq<Event>, n: nat, m: nat, idx: nat)
    requires Run(states, events) && n <= m < |states| && Failing(states[n], idx)
    ensures Failing(states[m], idx)
    ensures (exists k :: n <= k < m && events[k].BeginUpdate?) ==> Doomed(states[m], idx)
    decreases m
  {
    hide Next;
    hide Waits;
    hide New;
    hide Doomed;
    if n < m {
      FailingOn(states, events, n, m - 1, idx);
      var w, event, w' := states[m - 1], events[m - 1], states[m];
      assert Next(w, event, w');
      WaitsStep(w, event, w', idx);
      if Doomed(w, idx) {
        DoomedGoesOn(w, event, w', idx);
      } else if event.BeginUpdate? {
        assert !w.receiving && w'.s == Preupdate(w.s, event.gone).0 by {
          Begins(w, event, w');
        }
        NoInternalError(states, events, m - 1, event.gone);
        FailuresMarked(w.s, event.gone, idx);
        MarkedIsDoomed(w', idx);
      } else {
        CompletionsStay(w, event, w', Failure(idx));
      }
    }
  }

  lemma Begins(w: World, event: Event, w': World)
    requires Next(w, event, w') && event.BeginUpdate?
    ensures !w.receiving && w'.s == Preupdate(w.s, event.gone).0
  {
  }

  lemma MarkedIsDoomed(w: World, idx: nat)
    requires idx < w.s.nextIdx && !Waits(w.s, idx) && idx in w.s.lost
    ensures Doomed(w, idx)
  {
  }

  lemma DoomedGoesOn(w: World, event: Event, w': World, idx: nat)
    requires Next(w, event, w') && Doomed(w, idx)
    ensures Doomed(w', idx)
  {
    hide Next;
    DoomedStays(w, event, w', idx);
  }

  /** A connection whose session fails is in no table after the next whole update, and never again. */
  lemma FailedIsOver(states: seq<World>, events: seq<Event>, n: nat, k: nat, m: nat, j: nat, idx: nat)
    requires Run(states, events) && n < k < m < j < |states| && events[n] == Fail(idx)
    requires events[k].BeginUpdate? && events[m].EndUpdate? && idx < states[n].s.nextIdx && !Waits(states[n].s, idx)
    ensures idx !in states[j].s.pending && idx !in states[j].s.clients
  {
    hide Next;
    hide Waits;
    hide New;
    assert Next(states[n], events[n], states[n + 1]);
    FailFails(states[n], states[n + 1], idx);
    FailingOn(states, events, n + 1, m, idx);
    assert Next(states[m], events[m], states[m + 1]);
    DoomedStays(states[m], events[m], states[m + 1], idx);
    OverForGood(states, events, m + 1, j, idx);
  }

  lemma FailFails(w: World, w': World, idx: nat)
    requires Next(w, Fail(idx), w') && idx < w.s.nextIdx && !Waits(w.s, idx)
    ensures Failing(w', idx)
  {
  }

  // ----- How a client leaves

  /** A client leaves exactly with the end of an update, when it is marked lost or its session has finished. */
  lemma LeavesExactly(w: World, event: Event, w': World, idx: nat)
    requires Inv(w) && Next(w, event, w') && idx in w.s.clients
    ensures idx !in w'.s.clients <==> event.EndUpdate? && (idx in w.s.lost || idx in event.finished)
  {
    NotBoth(w);
    hide Inv;
    hide TryRecv;
    hide Preupdate;
    hide Answer;
    hide Denied;
    hide Cleared;
    match event
    case Receive(capacity) =>
      var k := ReceiveRequests(w, capacity, w');
    case BeginUpdate(gone) => PreupdateUpdates(w.s, gone, idx);
    case Accept(id, packet, gone) => AnswerClients(w.s, id, w.handed.value, packet, gone);
    case Deny(answer, gone) => DeniedClients(w.s, w.handed.value, answer, gone);
    case SendTo(to, packet, gone) => SendOnly(w.s, to, packet, gone);
    case EndUpdate(finished) => ClearedClients(w.s, Gone(w.s, finished));
    case _ =>
  }

  lemma AnswerClients(s: Sockets, id: nat, to: nat, packet: Bytes, gone: set<nat>)
    ensures Answer(s, id, to, packet, gone).clients == s.clients
  {
    SendOnly(ConnectionAccepted(s, id, to), to, packet, gone);
    hide Send;
  }

  lemma DeniedClients(s: Sockets, to: nat, answer: Option<Bytes>, gone: set<nat>)
    ensures Denied(s, to, answer, gone).clients == s.clients
  {
    hide Send;
    if answer.Some? {
      SendOnly(s, to, answer.value, gone);
    }
  }

  lemma ClearedClients(s: Sockets, gone: set<nat>)
    ensures Cleared(s, gone).clients == s.clients - gone
  {
    hide Remaining;
    hide Size;
  }

  /** A client whose session has finished at the end of an update is in no table from then on. */
  lemma FinishedIsOver(states: seq<World>, events: seq<Event>, m: nat, j: nat, idx: nat)
    requires Run(states, events) && m < j < |states| && events[m].EndUpdate? && idx in events[m].finished
    requires idx in states[m].s.clients
    ensures idx !in states[j].s.pending && idx !in states[j].s.clients
  {
    hide New;
    assert Next(states[m], events[m], states[m + 1]);
    RunInv(states, events, m);
    NotBoth(states[m]);
    LeavesExactly(states[m], events[m], states[m + 1], idx);
    hide Inv;
    WaitsStep(states[m], events[m], states[m + 1], idx);
    TablesStep(states[m], events[m], states[m + 1], idx);
    hide Next;
    hide Waits;
    OverForGood(states, events, m + 1, j, idx);
  }

  /**
   * Outside the reading of messages and sessions a connection is marked lost exactly by being dropped or
   * denied, by another taking over its client id, or by a packet to it when its session has ended.
   */
  lemma MarkedExactly(w: World, event: Event, w': World, idx: nat)
    requires Inv(w) && Next(w, event, w') && idx !in w.s.lost
    requires !event.Receive? && !event.BeginUpdate? && !event.EndUpdate?
    ensures var ended := w.s.losesOnSend && idx in w.s.clients;
            idx in w'.s.lost <==>
              match event
              case Drop(i) => i == idx
              case Deny(_, _) => w.handed == Some(idx)
              case SendTo(i, _, gone) => i == idx && ended && idx in gone
              case Accept(id, _, gone) =>
                || (w.handed.value in w.s.pending && w.handed != Some(idx) && Points(w.s, id, idx))
                || (w.handed == Some(idx) && ended && idx in gone)
              case _ => false
  {
    NotBoth(w);
    hide Inv;
    hide Send;
    hide Outbox;
    match event
    case Accept(id, packet, gone) =>
      SentExactly(ConnectionAccepted(w.s, id, w.handed.value), w.handed.value, packet, gone);
    case Deny(Some(packet), gone) => SentExactly(w.s, w.handed.value, packet, gone);
    case SendTo(to, packet, gone) => SentExactly(w.s, to, packet, gone);
    case _ =>
  }

  // ----- Each update looks at all clients

  lemma {:induction false} StartsOver(s: Sockets, gone: set<nat>)
    requires Preupdate(s, gone).1 == NoFault
    ensures Preupdate(s, gone).0.recvIndex == 0
    decreases |s.completions|
  {
    hide TakeIn;
    if s.completions != [] {
      var rest := s.(completions := s.completions[1..]);
      TakeInQueue(rest, s.completions[0], gone);
      FirstFault(s, gone);
      StartsOver(TakeIn(rest, s.completions[0], gone).0, gone);
    }
  }

  /** When the first call of an update finds nothing, no client had a message that fits at the front of its inbox. */
  lemma AllLookedAt(states: seq<World>, events: seq<Event>, n: nat, capacity: nat, idx: nat)
    requires Run(states, events) && n + 1 < |events| && events[n].BeginUpdate? && events[n + 1] == Receive(capacity)
    requires states[n + 2].handed.None? && idx in states[n + 1].s.clients
    ensures !Fits(states[n + 1].s, idx, capacity)
  {
    hide Scan;
    hide TakeRequest;
    hide Preupdate;
    hide New;
    var w := states[n + 1];
    assert Next(states[n], events[n], w) && Next(w, events[n + 1], states[n + 2]);
    NoInternalError(states, events, n, events[n].gone);
    StartsOver(states[n].s, events[n].gone);
    var (s1, request) := TakeRequest(w.s, capacity);
    var k := RequestFound(w.s, capacity);
    var mid := ScanFinds(s1, s1.recvIndex, capacity);
    RunInv(states, events, n + 1);
    NotBoth(w);
    hide Inv;
    assert SearchedAt(s1, 0, s1.nextIdx, capacity, Scan(s1, 0, capacity).0, idx);
  }
}
