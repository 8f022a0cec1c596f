/**
 * What the server's sockets hand on, over every run: messages and requests in the order they came,
 * and connections that are over for good (renet2_netcode/src/websocket_socket/server/socket.rs).
 */
module SocketRuns {
  import opened Base
  import opened SocketTables

  // ----- One call

  /** The first message of the client fits. */
  predicate Fits(s: Sockets, idx: nat, capacity: nat) {
    idx in s.clients && Inbox(s, idx) != [] && |Inbox(s, idx)[0]| <= capacity
  }

  /** The first message of the client does not fit. */
  predicate TooLarge(s: Sockets, idx: nat, capacity: nat) {
    idx in s.clients && Inbox(s, idx) != [] && |Inbox(s, idx)[0]| > capacity
  }

  /** What becomes of an inbox when the clients up to `end` have been looked at. */
  function InboxAfter(s: Sockets, idx: nat, i: nat, end: nat, capacity: nat): seq<Bytes> {
    if i <= idx < end && TooLarge(s, idx, capacity) then Inbox(s, idx)[1..] else Inbox(s, idx)
  }

  /** What the search leaves of one client. */
  ghost predicate SearchedAt(s: Sockets, i: nat, end: nat, capacity: nat, s': Sockets, idx: nat) {
    && (i <= idx < end ==> !Fits(s, idx, capacity))
    && Inbox(s', idx) == InboxAfter(s, idx, i, end, capacity)
    && (idx in s'.lost <==> idx in s.lost || (i <= idx < end && TooLarge(s, idx, capacity)))
  }

  /** The clients looked at, from `i` up to `end`, have no message that fits; those with one too large are lost. */
  ghost predicate Searched(s: Sockets, i: nat, end: nat, capacity: nat, s': Sockets) {
    && s' == s.(inboxes := s'.inboxes, lost := s'.lost, recvIndex := s'.recvIndex)
    && (forall idx: nat :: SearchedAt(s, i, end, capacity, s', idx))
    && Resumes(s, i, end, s'.recvIndex)
  }

  predicate Silent(s: Sockets, idx: nat) {
    idx in s.clients && Inbox(s, idx) == []
  }

  /** The next search starts after the last client that had no message. */
  ghost predicate Resumes(s: Sockets, i: nat, end: nat, index: nat) {
    && (forall idx: nat :: i <= idx < end && Silent(s, idx) ==> idx < index)
    && (index == s.recvIndex || (0 < index && i <= index - 1 < end && Silent(s, index - 1)))
  }

  lemma SearchedNone(s: Sockets, i: nat, end: nat, capacity: nat)
    requires end <= i
    ensures Searched(s, i, end, capacity, s)
  {
  }

  /** The table once client `i`, which has no message that fits, has been looked at. */
  function Looked(s: Sockets, i: nat, capacity: nat): Sockets {
    if i !in s.clients then s
    else if Inbox(s, i) == [] then s.(recvIndex := i + 1)
    else s.(inboxes := s.inboxes[i := Inbox(s, i)[1..]], lost := s.lost + {i})
  }

  lemma LookedOthers(s: Sockets, i: nat, capacity: nat, idx: nat)
    requires idx != i
    ensures var s1 := Looked(s, i, capacity);
            && Inbox(s1, idx) == Inbox(s, idx) && Fits(s1, idx, capacity) == Fits(s, idx, capacity)
            && TooLarge(s1, idx, capacity) == TooLarge(s, idx, capacity) && (idx in s1.lost <==> idx in s.lost)
  {
  }

  lemma ResumesStep(s: Sockets, i: nat, end: nat, capacity: nat, index: nat)
    requires i < end && Resumes(Looked(s, i, capacity), i + 1, end, index)
    ensures Resumes(s, i, end, index)
  {
    var s1 := Looked(s, i, capacity);
    assert forall idx: nat :: idx != i ==> Silent(s1, idx) == Silent(s, idx);
  }

  lemma StepAt(s: Sockets, i: nat, end: nat, capacity: nat, s': Sockets, idx: nat)
    requires i < end && !Fits(s, i, capacity) && SearchedAt(Looked(s, i, capacity), i + 1, end, capacity, s', idx)
    ensures SearchedAt(s, i, end, capacity, s', idx)
  {
    if idx != i {
      LookedOthers(s, i, capacity, idx);
      hide Looked;
      hide Inbox;
    }
  }

  lemma SearchedStep(s: Sockets, i: nat, end: nat, capacity: nat, s': Sockets)
    requires i < end && !Fits(s, i, capacity) && Searched(Looked(s, i, capacity), i + 1, end, capacity, s')
    ensures Searched(s, i, end, capacity, s')
  {
    hide SearchedAt;
    ResumesStep(s, i, end, capacity, s'.recvIndex);
    hide Resumes;
    forall idx: nat
      ensures SearchedAt(s, i, end, capacity, s', idx)
    {
      StepAt(s, i, end, capacity, s', idx);
    }
  }

  /**
   * The search answers with the first message of the first client, from `i` on, whose first message
   * fits, and takes it; with none exactly when there is no such client. Up to there it drops first
   * messages that are too large, and marks those clients lost.
   */
  lemma {:induction false} ScanFinds(s: Sockets, i: nat, capacity: nat) returns (mid: Sockets)
    ensures match Scan(s, i, capacity).1
            case None => Searched(s, i, s.nextIdx, capacity, Scan(s, i, capacity).0)
            case Some((j, packet)) =>
              && i <= j < s.nextIdx && Fits(s, j, capacity) && packet == Inbox(s, j)[0]
              && Searched(s, i, j, capacity, mid)
              && Scan(s, i, capacity).0 == mid.(inboxes := mid.inboxes[j := Inbox(s, j)[1..]])
    decreases s.nextIdx - i
  {
    hide Searched;
    mid := s;
    if i >= s.nextIdx {
      SearchedNone(s, i, s.nextIdx, capacity);
    } else if Fits(s, i, capacity) {
      SearchedNone(s, i, i, capacity);
    } else {
      var s1 := Looked(s, i, capacity);
      mid := ScanFinds(s1, i + 1, capacity);
      match Scan(s1, i + 1, capacity).1
      case None => SearchedStep(s, i, s.nextIdx, capacity, Scan(s1, i + 1, capacity).0);
      case Some((j, _)) =>
        LookedOthers(s, i, capacity, j);
        SearchedStep(s, i, j, capacity, mid);
    }
  }

  /** The outcome is request `k`, or none if there are no more; those before it do not fit. */
  ghost predicate Outcome(s: Sockets, capacity: nat, k: nat, s': Sockets, r: Option<(nat, Bytes)>) {
    && k <= |s.requests| && (forall j :: 0 <= j < k ==> |s.requests[j].1| > capacity)
    && match r
       case None => k == |s.requests| && s' == s.(requests := [])
       case Some(request) =>
         && k < |s.requests| && request == s.requests[k] && |request.1| <= capacity
         && s' == WithPending(s, request.0).(requests := s.requests[k + 1..])
  }

  lemma OutcomeLater(s: Sockets, capacity: nat, k: nat, s': Sockets, r: Option<(nat, Bytes)>)
    requires s.requests != [] && |s.requests[0].1| > capacity
    requires Outcome(s.(requests := s.requests[1..]), capacity, k, s', r)
    ensures Outcome(s, capacity, k + 1, s', r)
  {
    assert forall j :: 0 < j < k + 1 ==> s.requests[j] == s.requests[1..][j - 1];
    if r.Some? {
      assert s.requests[1..][k + 1..] == s.requests[k + 2..];
    }
  }

  /** The requests are looked at in order: those that do not fit go, the first that fits is answered with. */
  lemma {:induction false} RequestFound(s: Sockets, capacity: nat) returns (k: nat)
    ensures Outcome(s, capacity, k, TakeRequest(s, capacity).0, TakeRequest(s, capacity).1)
    decreases |s.requests|
  {
    if s.requests == [] || |s.requests[0].1| <= capacity {
      k := 0;
    } else {
      var s1 := s.(requests := s.requests[1..]);
      var n := RequestFound(s1, capacity);
      k := n + 1;
      OutcomeLater(s, capacity, n, TakeRequest(s1, capacity).0, TakeRequest(s1, capacity).1);
      hide Outcome;
    }
  }

  // ----- Messages, over runs

  /** The packets that handlers have put into the inbox of the connection. */
  function Delivered(events: seq<Event>, n: nat, idx: nat): seq<Bytes>
    requires n <= |events|
  {
    if n == 0 then []
    else
      Delivered(events, n - 1, idx) +
      match events[n - 1]
      case Deliver(i, packet) => if i == idx then [packet] else []
      case _ => []
  }

  /** What the event answers the caller with, of the messages of the connection. */
  function AnsweredWith(w: World, event: Event, idx: nat): seq<Bytes> {
    match event
    case Receive(capacity) =>
      var r := TryRecv(w.s, capacity).1;
      if r.Some? && r.value.0 == idx && TakeRequest(w.s, capacity).1.None? then [r.value.1] else []
    case _ => []
  }

  /** The messages of the connection the caller has been answered with. */
  function Answers(states: seq<World>, events: seq<Event>, n: nat, idx: nat): seq<Bytes>
    requires n <= |events| < |states|
  {
    if n == 0 then [] else Answers(states, events, n - 1, idx) + AnsweredWith(states[n - 1], events[n - 1], idx)
  }

  /** Those and the ones dropped: when an inbox gets shorter without an answer, the next message delivered is gone. */
  function Consumed(states: seq<World>, events: seq<Event>, n: nat, idx: nat): seq<Bytes>
    requires n <= |events| < |states|
  {
    if n == 0 then []
    else
      var before := Consumed(states, events, n - 1, idx);
      var answer := AnsweredWith(states[n - 1], events[n - 1], idx);
      if answer != [] then before + answer
      else if
        |Inbox(states[n].s, idx)| < |Inbox(states[n - 1].s, idx)| && |before| < |Delivered(events, n - 1, idx)| then
        before + [Delivered(events, n - 1, idx)[|before|]]
      else before
  }

  /** What an event does to an inbox, by its two ends. */
  lemma InboxStep(w: World, event: Event, w': World, idx: nat)
    requires Next(w, event, w')
    ensures event.Deliver? && event.idx == idx ==> Inbox(w'.s, idx) == Inbox(w.s, idx) + [event.packet]
    ensures !event.Receive? && !(event.Deliver? && event.idx == idx) ==> Inbox(w'.s, idx) == Inbox(w.s, idx)
    ensures event.Receive? ==>
              if AnsweredWith(w, event, idx) != [] then
                && |AnsweredWith(w, event, idx)[0]| <= event.capacity
                && AnsweredWith(w, event, idx) + Inbox(w'.s, idx) == Inbox(w.s, idx)
              else
                || Inbox(w'.s, idx) == Inbox(w.s, idx)
                || (&& TooLarge(w.s, idx, event.capacity) && idx in w'.s.lost
                    && [Inbox(w.s, idx)[0]] + Inbox(w'.s, idx) == Inbox(w.s, idx))
  {
    match event
    case Receive(capacity) => ReceiveStep(w, capacity, w', idx);
    case BeginUpdate(gone) => PreupdateKeeps(w.s, gone);
    case _ =>
  }

  lemma TakeInKeeps(s: Sockets, c: Completion, gone: set<nat>)
    ensures var s' := TakeIn(s, c, gone).0;
            && s'.inboxes == s.inboxes && s'.requests == s.requests && s'.nextIdx == s.nextIdx && s.lost <= s'.lost
            && (forall idx :: idx in s'.clients ==> idx in s.clients || idx in s.pending)
            && s'.pending.Keys <= s.pending.Keys
  {
    if c.Success? && c.idx in s.pending && Points(s, c.id, c.idx) && s.pending[c.idx].buffered.Some? {
      var s2 := s.(pending := s.pending - {c.idx}, clients := s.clients[c.idx := c.id]);
      SendOnly(s2, c.idx, s.pending[c.idx].buffered.value, gone);
    }
    hide Send;
  }

  lemma {:induction false} PreupdateKeeps(s: Sockets, gone: set<nat>)
    ensures var s' := Preupdate(s, gone).0;
            && s'.inboxes == s.inboxes && s'.requests == s.requests && s'.nextIdx == s.nextIdx && s.lost <= s'.lost
            && (forall idx :: idx in s'.clients ==> idx in s.clients || idx in s.pending)
            && s'.pending.Keys <= s.pending.Keys
    decreases |s.completions|
  {
    hide TakeIn;
    if s.completions != [] {
      var rest := s.(completions := s.completions[1..]);
      TakeInQueue(rest, s.completions[0], gone);
      TakeInKeeps(rest, s.completions[0], gone);
      PreupdateKeeps(TakeIn(rest, s.completions[0], gone).0, gone);
    }
  }

  lemma ReceiveStep(w: World, capacity: nat, w': World, idx: nat)
    requires Next(w, Receive(capacity), w')
    ensures var answer := AnsweredWith(w, Receive(capacity), idx);
            if answer != [] then |answer[0]| <= capacity && answer + Inbox(w'.s, idx) == Inbox(w.s, idx)
            else
              || Inbox(w'.s, idx) == Inbox(w.s, idx)
              || (&& TooLarge(w.s, idx, capacity) && idx in w'.s.lost
                  && [Inbox(w.s, idx)[0]] + Inbox(w'.s, idx) == Inbox(w.s, idx))
  {
    hide TakeRequest;
    hide Scan;
    var (s1, request) := TakeRequest(w.s, capacity);
    var k := RequestFound(w.s, capacity);
    if request.None? {
      var mid := ScanFinds(s1, s1.recvIndex, capacity);
      assert Inbox(s1, idx) == Inbox(w.s, idx) && TooLarge(s1, idx, capacity) == TooLarge(w.s, idx, capacity);
      hide Resumes;
      match Scan(s1, s1.recvIndex, capacity).1
      case None =>
        assert SearchedAt(s1, s1.recvIndex, s1.nextIdx, capacity, w'.s, idx);
      case Some((j, packet)) =>
        assert SearchedAt(s1, s1.recvIndex, j, capacity, mid, idx);
        assert j != idx ==> Inbox(w'.s, idx) == Inbox(mid, idx);
    }
  }

  /**
   * Messages of a connection leave its inbox in the order they came: what has been answered with or
   * dropped, followed by what is left, is what was delivered.
   */
  lemma {:induction false} InOrder(states: seq<World>, events: seq<Event>, n: nat, idx: nat)
    requires Run(states, events) && n < |states|
    ensures Consumed(states, events, n, idx) + Inbox(states[n].s, idx) == Delivered(events, n, idx)
  {
    hide Next;
    hide Inbox;
    hide AnsweredWith;
    if n == 0 {
      assert Inbox(states[0].s, idx) == [] by {
        NothingDelivered(states[0], idx);
      }
    } else {
      InOrder(states, events, n - 1, idx);
      InboxStep(states[n - 1], events[n - 1], states[n], idx);
      var before, inbox := Consumed(states, events, n - 1, idx), Inbox(states[n - 1].s, idx);
      match events[n - 1]
      case Deliver(i, packet) =>
        NoAnswer(states[n - 1], events[n - 1], idx);
        assert before + (inbox + [packet]) == before + inbox + [packet];
      case Receive(capacity) =>
        var left := Inbox(states[n].s, idx);
        var answer := AnsweredWith(states[n - 1], events[n - 1], idx);
        if answer != [] {
          assert before + answer + left == before + (answer + left);
        } else if left != inbox {
          assert (before + inbox)[|before|] == inbox[0];
          assert before + [inbox[0]] + left == before + ([inbox[0]] + left);
        }
      case _ => NoAnswer(states[n - 1], events[n - 1], idx);
    }
  }

  lemma NothingDelivered(w: World, idx: nat)
    requires New(w)
    ensures Inbox(w.s, idx) == []
  {
  }

  lemma NoAnswer(w: World, event: Event, idx: nat)
    requires !event.Receive?
    ensures AnsweredWith(w, event, idx) == []
  {
  }

  /** Every buffer the caller comes with holds every message delivered. */
  ghost predicate RoomForAll(events: seq<Event>, n: nat, idx: nat)
    requires n <= |events|
  {
    forall j, k :: 0 <= j < n && 0 <= k < n && events[j].Receive? && events[k].Deliver? && events[k].idx == idx ==>
      |events[k].packet| <= events[j].capacity
  }

  lemma {:induction false} DeliveredFits(events: seq<Event>, n: nat, idx: nat, j: nat, m: nat)
    requires m <= n <= |events| && RoomForAll(events, n, idx) && j < n && events[j].Receive?
    ensures forall packet :: packet in Delivered(events, m, idx) ==> |packet| <= events[j].capacity
    decreases m
  {
    if m > 0 {
      DeliveredFits(events, n, idx, j, m - 1);
    }
  }

  /** With buffers that are large enough nothing is dropped: the answers are what was delivered, as far as they go. */
  lemma {:induction false} NothingDropped(states: seq<World>, events: seq<Event>, n: nat, idx: nat)
    requires Run(states, events) && n < |states| && RoomForAll(events, n, idx)
    ensures Answers(states, events, n, idx) + Inbox(states[n].s, idx) == Delivered(events, n, idx)
    decreases n
  {
    hide Next;
    hide AnsweredWith;
    InOrder(states, events, n, idx);
    hide Run;
    AnswersAreConsumed(states, events, n, idx);
  }

  lemma {:induction false} AnswersAreConsumed(states: seq<World>, events: seq<Event>, n: nat, idx: nat)
    requires Run(states, events) && n <= |events| < |states| && RoomForAll(events, n, idx)
    ensures Answers(states, events, n, idx) == Consumed(states, events, n, idx)
    decreases n
  {
    hide Run;
    hide RoomForAll;
    hide AnsweredWith;
    hide Inbox;
    hide Delivered;
    if n > 0 {
      RoomBefore(events, n, idx);
      AnswersAreConsumed(states, events, n - 1, idx);
      NoneDropped(states, events, n, idx);
      assert Answers(states, events, n - 1, idx) + [] == Answers(states, events, n - 1, idx);
    }
  }

  lemma RoomBefore(events: seq<Event>, n: nat, idx: nat)
    requires 0 < n <= |events| && RoomForAll(events, n, idx)
    ensures RoomForAll(events, n - 1, idx)
  {
  }

  /** An inbox gets shorter only by an answer. */
  lemma NoneDropped(states: seq<World>, events: seq<Event>, n: nat, idx: nat)
    requires Run(states, events) && 0 < n <= |events| < |states| && RoomForAll(events, n, idx)
    ensures || AnsweredWith(states[n - 1], events[n - 1], idx) != []
            || |Inbox(states[n].s, idx)| >= |Inbox(states[n - 1].s, idx)|
  {
    hide Next;
    hide AnsweredWith;
    hide Inbox;
    hide TooLarge;
    InOrder(states, events, n - 1, idx);
    InboxStep(states[n - 1], events[n - 1], states[n], idx);
    var inbox, before := Inbox(states[n - 1].s, idx), Consumed(states, events, n - 1, idx);
    if events[n - 1].Receive? && inbox != [] {
      DeliveredFits(events, n, idx, n - 1, n - 1);
      hide Consumed;
      hide Delivered;
      assert inbox[0] == (before + inbox)[|before|];
      assert inbox[0] in Delivered(events, n - 1, idx);
      FittingKept(states[n - 1].s, idx, events[n - 1].capacity);
    }
  }

  lemma FittingKept(s: Sockets, idx: nat, capacity: nat)
    requires Inbox(s, idx) != [] && |Inbox(s, idx)[0]| <= capacity
    ensures !TooLarge(s, idx, capacity)
  {
  }

  // ----- Requests, over runs

  /** The requests that came in, each under the next index. */
  function Arrived(events: seq<Event>, n: nat): seq<(nat, Bytes)>
    requires n <= |events|
  {
    if n == 0 then []
    else
      var before := Arrived(events, n - 1);
      if events[n - 1].Arrive? then before + [(|before|, events[n - 1].packet)] else before
  }

  lemma ReceiveRequests(w: World, capacity: nat, w': World) returns (k: nat)
    requires Next(w, Receive(capacity), w')
    ensures k <= |w.s.requests| && w'.s.requests == w.s.requests[k..] && w'.s.nextIdx == w.s.nextIdx
    ensures w.s.lost <= w'.s.lost && w'.s.clients == w.s.clients
    ensures forall idx :: idx in w'.s.pending ==> idx in w.s.pending || Waits(w.s, idx)
  {
    hide Scan;
    hide TakeRequest;
    hide Resumes;
    k := RequestFound(w.s, capacity);
    var (s1, request) := TakeRequest(w.s, capacity);
    if request.Some? {
      assert w.s.requests[k].0 == request.value.0;
      k := k + 1;
    } else {
      ScanSame(s1, s1.recvIndex, capacity);
    }
  }

  lemma RequestsStep(w: World, event: Event, w': World) returns (k: nat)
    requires Next(w, event, w')
    ensures event.Arrive? ==>
              w'.s.requests == w.s.requests + [(w.s.nextIdx, event.packet)] && w'.s.nextIdx == w.s.nextIdx + 1
    ensures !event.Arrive? ==>
              k <= |w.s.requests| && w'.s.requests == w.s.requests[k..] && w'.s.nextIdx == w.s.nextIdx
  {
    hide TryRecv;
    hide Preupdate;
    hide Send;
    k := 0;
    match event
    case Receive(capacity) => k := ReceiveRequests(w, capacity, w');
    case BeginUpdate(gone) => PreupdateKeeps(w.s, gone);
    case Accept(id, packet, gone) =>
      SendOnly(ConnectionAccepted(w.s, id, w.handed.value), w.handed.value, packet, gone);
    case Deny(Some(packet), gone) => SendOnly(w.s, w.handed.value, packet, gone);
    case SendTo(to, packet, gone) => SendOnly(w.s, to, packet, gone);
    case _ =>
  }

  /** Requests wait in the order they came; the indices count them. */
  lemma {:induction false} RequestsInOrder(states: seq<World>, events: seq<Event>, n: nat)
    requires Run(states, events) && n < |states|
    ensures states[n].s.nextIdx == |Arrived(events, n)|
    ensures |states[n].s.requests| <= |Arrived(events, n)|
    ensures states[n].s.requests == Arrived(events, n)[|Arrived(events, n)| - |states[n].s.requests|..]
  {
    hide Next;
    if n > 0 {
      RequestsInOrder(states, events, n - 1);
      var k := RequestsStep(states[n - 1], events[n - 1], states[n]);
    }
  }

  // ----- Connections that are over

  /** The index was used and is not in use any more. */
  ghost predicate Over(w: World, idx: nat) {
    idx < w.s.nextIdx && !Waits(w.s, idx) && idx !in w.s.pending && idx !in w.s.clients
  }

  lemma WaitsStep(w: World, event: Event, w': World, idx: nat)
    requires Next(w, event, w') && idx < w.s.nextIdx && !Waits(w.s, idx)
    ensures idx < w'.s.nextIdx && !Waits(w'.s, idx)
  {
    hide Next;
    var k := RequestsStep(w, event, w');
    if event.Arrive? {
      assert forall j :: 0 <= j < |w.s.requests| ==> w'.s.requests[j] == w.s.requests[j];
    } else {
      assert forall j :: 0 <= j < |w'.s.requests| ==> w'.s.requests[j] == w.s.requests[j + k];
    }
  }

  /** A connection is pending only after its request was taken, accepted only after it was pending. */
  lemma TablesStep(w: World, event: Event, w': World, idx: nat)
    requires Next(w, event, w') && !Waits(w.s, idx)
    ensures idx in w'.s.pending ==> idx in w.s.pending
    ensures idx in w'.s.clients ==> idx in w.s.clients || idx in w.s.pending
    ensures idx in w.s.lost ==>
              if event.EndUpdate? then idx !in w'.s.pending && idx !in w'.s.clients else idx in w'.s.lost
  {
    hide TryRecv;
    hide Preupdate;
    hide Waits;
    hide Send;
    match event
    case Receive(capacity) =>
      var k := ReceiveRequests(w, capacity, w');
    case BeginUpdate(gone) => PreupdateKeeps(w.s, gone);
    case Accept(id, packet, gone) =>
      SendOnly(ConnectionAccepted(w.s, id, w.handed.value), w.handed.value, packet, gone);
    case Deny(Some(packet), gone) => SendOnly(w.s, w.handed.value, packet, gone);
    case SendTo(to, packet, gone) => SendOnly(w.s, to, packet, gone);
    case _ =>
  }

  /** Nothing brings a connection back: its index is never given out again. */
  lemma OverStays(w: World, event: Event, w': World, idx: nat)
    requires Next(w, event, w') && Over(w, idx)
    ensures Over(w', idx)
  {
    hide Next;
    hide Waits;
    WaitsStep(w, event, w', idx);
    TablesStep(w, event, w', idx);
  }

  lemma {:induction false} OverForGood(states: seq<World>, events: seq<Event>, n: nat, m: nat, idx: nat)
    requires Run(states, events) && n <= m < |states| && Over(states[n], idx)
    ensures Over(states[m], idx)
    decreases m
  {
    hide Next;
    hide Over;
    if n < m {
      OverForGood(states, events, n, m - 1, idx);
      OverStays(states[m - 1], events[m - 1], states[m], idx);
    }
  }

  /** The connection is over, or marked to be over with the next `postupdate`. */
  ghost predicate Doomed(w: World, idx: nat) {
    idx < w.s.nextIdx && !Waits(w.s, idx) && (idx in w.s.lost || Over(w, idx))
  }

  lemma DoomedStays(w: World, event: Event, w': World, idx: nat)
    requires Next(w, event, w') && Doomed(w, idx)
    ensures if event.EndUpdate? then Over(w', idx) else Doomed(w', idx)
  {
    hide Next;
    hide Waits;
    WaitsStep(w, event, w', idx);
    TablesStep(w, event, w', idx);
  }

  lemma {:induction false} DoomedOn(states: seq<World>, events: seq<Event>, n: nat, m: nat, idx: nat)
    requires Run(states, events) && n <= m < |states| && Doomed(states[n], idx)
    ensures Doomed(states[m], idx)
    decreases m
  {
    hide Next;
    if n < m {
      DoomedOn(states, events, n, m - 1, idx);
      DoomedStays(states[m - 1], events[m - 1], states[m], idx);
    }
  }

  /**
   * A connection that is dropped is over once the update has ended, and stays so: it is neither
   * pending nor accepted, and no client id leads to it between updates.
   */
  lemma DroppedIsOver(states: seq<World>, events: seq<Event>, n: nat, m: nat, j: nat, idx: nat)
    requires Run(states, events) && n < m < j < |states| && events[n] == Drop(idx) && events[m].EndUpdate?
    requires idx < states[n].s.nextIdx && !Waits(states[n].s, idx)
    ensures idx !in states[j].s.pending && idx !in states[j].s.clients
    ensures !states[j].receiving ==> forall id: nat :: !Points(states[j].s, id, idx)
  {
    hide Next;
    hide Waits;
    hide New;
    assert Next(states[n], events[n], states[n + 1]);
    DropDooms(states[n], states[n + 1], idx);
    DoomedOn(states, events, n + 1, m, idx);
    assert Next(states[m], events[m], states[m + 1]);
    DoomedStays(states[m], events[m], states[m + 1], idx);
    OverForGood(states, events, m + 1, j, idx);
    if !states[j].receiving {
      forall id: nat
        ensures !Points(states[j].s, id, idx)
      {
        IndexIsInverse(states, events, j, idx, id);
      }
    }
  }

  lemma DropDooms(w: World, w': World, idx: nat)
    requires Next(w, Drop(idx), w') && idx < w.s.nextIdx && !Waits(w.s, idx)
    ensures Doomed(w', idx)
  {
  }
}
