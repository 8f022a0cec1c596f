/**
 * The dummy addresses that stand for client indices
 * (renet2_netcode/src/webtransport_socket/utils.rs).
 */
module ClientAddresses {
  import opened Base

  const U16: nat := 0x1_0000

  /** An IPv6 address as its 16 octets; the code panics on IPv4 addresses. */
  datatype SocketAddr = V4 | V6(octets: Bytes, port: nat)

  predicate IsIndexed(a: SocketAddr) {
    a.V6? && |a.octets| == 16
  }

  /** The two octets of a 16-bit group, most significant first. */
  function Group(v: nat): Bytes {
    [v / 256 % 256, v % 256]
  }

  /** The four 16-bit groups of the index, lowest first, then zeros. */
  function ToAddr(idx: nat): (a: SocketAddr)
    ensures IsIndexed(a)
  {
    V6(Groups(idx % U16, idx / U16 % U16, idx / U16 / U16 % U16, idx / U16 / U16 / U16 % U16), 0)
  }

  function Pair(octets: Bytes, k: nat): (v: nat)
    requires k + 1 < |octets|
    ensures v < U16
  {
    octets[k] as int * 256 + octets[k + 1] as int
  }

  /** The value of the first groups, the first one lowest. */
  function Value(octets: Bytes, i: nat): nat
    requires 2 * i <= |octets|
  {
    if i == 0 then 0 else Pair(octets, 0) + U16 * Value(octets[2..], i - 1)
  }

  function FromAddr(a: SocketAddr): nat
    requires IsIndexed(a)
  {
    Value(a.octets, 4)
  }

  lemma GroupBack(v: nat)
    requires v < U16
    ensures Pair(Group(v), 0) == v
  {
  }

  lemma ValueStep(v: nat, rest: Bytes, i: nat)
    requires v < U16 && 2 * i <= |rest|
    ensures Value(Group(v) + rest, i + 1) == v + U16 * Value(rest, i)
  {
    GroupBack(v);
    assert (Group(v) + rest)[2..] == rest;
  }

  function Groups(a: nat, b: nat, c: nat, d: nat): Bytes {
    Group(a) + Group(b) + Group(c) + Group(d) + [0, 0, 0, 0, 0, 0, 0, 0]
  }

  lemma GroupsBack(a: nat, b: nat, c: nat, d: nat)
    requires a < U16 && b < U16 && c < U16 && d < U16
    ensures |Groups(a, b, c, d)| == 16
    ensures Value(Groups(a, b, c, d), 4) == a + U16 * (b + U16 * (c + U16 * d))
  {
    GroupLength(a, b, c, d);
    hide Group;
    hide Value;
    var zeros: Bytes := [0, 0, 0, 0, 0, 0, 0, 0];
    ValueStep(d, zeros, 0);
    ValueStep(c, Group(d) + zeros, 1);
    ValueStep(b, Group(c) + (Group(d) + zeros), 2);
    ValueStep(a, Group(b) + (Group(c) + (Group(d) + zeros)), 3);
    assert Groups(a, b, c, d) == Group(a) + (Group(b) + (Group(c) + (Group(d) + zeros)));
    NoValue(zeros);
  }

  lemma GroupLength(a: nat, b: nat, c: nat, d: nat)
    ensures |Group(a)| == |Group(b)| == |Group(c)| == |Group(d)| == 2
  {
  }

  lemma NoValue(octets: Bytes)
    ensures Value(octets, 0) == 0
  {
  }

  /** Every 64-bit index comes back from its address. */
  lemma AddrRoundTrip(idx: nat)
    requires idx < U64
    ensures FromAddr(ToAddr(idx)) == idx
  {
    hide Groups;
    hide Value;
    GroupsBack(idx % U16, idx / U16 % U16, idx / U16 / U16 % U16, idx / U16 / U16 / U16 % U16);
    Parts(idx);
  }

  lemma Parts(idx: nat)
    requires idx < U64
    ensures idx % U16 +
              U16 * (idx / U16 % U16 + U16 * (idx / U16 / U16 % U16 + U16 * (idx / U16 / U16 / U16 % U16))) == idx
  {
    var x := idx / U16;
    var y := x / U16;
    var z := y / U16;
    assert idx == U16 * x + idx % U16 && x == U16 * y + x % U16 && y == U16 * z + y % U16;
    assert z < U16;
  }

  /** The groups are read from the fourth down to the first. */
  method ClientIdxFromAddr(a: SocketAddr) returns (idx: nat)
    requires IsIndexed(a)
    ensures idx == FromAddr(a) && idx < U64
  {
    idx := 0;
    var i := 4;
    assert a.octets[8..] == a.octets[2 * i..];
    while i > 0
      invariant 0 <= i <= 4
      invariant idx == Value(a.octets[2 * i..], 4 - i)
      invariant idx < Power(4 - i)
    {
      i := i - 1;
      assert a.octets[2 * i..][2..] == a.octets[2 * (i + 1)..];
      idx := idx * U16;
      idx := idx + Pair(a.octets, 2 * i);
    }
    assert a.octets[0..] == a.octets;
  }

  function Power(n: nat): nat {
    if n == 0 then 1 else U16 * Power(n - 1)
  }
}

/**
 * The bookkeeping of a WebSocket or WebTransport server as a value
 * (renet2_netcode/src/websocket_socket/server/socket.rs and
 * renet2_netcode/src/webtransport_socket/server/socket.rs).
 */
module SocketTables {
  import opened Base

  /** Stands in for the id of a client that has none; it is also a client id that can occur. */
  const NO_ID: nat := 0xffff_ffff_ffff_ffff

  datatype PendingClient = PendingClient(clientId: Option<nat>, buffered: Option<Bytes>)

  /** A session that the connection handler has set up or, for WebTransport, failed to. */
  datatype Completion = Success(idx: nat, id: nat) | Failure(idx: nat)

  /**
   * `requests`, `completions` and `inboxes` are the channels that the connection handlers fill,
   * `outboxes` what their writers were given; `nextIdx` is the counter they take indices from. For
   * WebTransport, `losesOnSend`: a client that turns out to be gone when something is sent to it is
   * marked lost.
   */
  datatype Sockets = Sockets(
    pending: map<nat, PendingClient>,
    clients: map<nat, nat>,
    idToIdx: map<nat, nat>,
    lost: set<nat>,
    current: nat,
    recvIndex: nat,
    nextIdx: nat,
    requests: seq<(nat, Bytes)>,
    completions: seq<Completion>,
    inboxes: map<nat, seq<Bytes>>,
    outboxes: map<nat, seq<Bytes>>,
    losesOnSend: bool)

  /** The connection `idx` is in use by client `id`. */
  predicate Live(s: Sockets, idx: nat, id: nat) {
    || (idx in s.clients && s.clients[idx] == id)
    || (idx in s.pending && s.pending[idx].clientId == Some(id))
  }

  predicate Points(s: Sockets, id: nat, idx: nat) {
    id in s.idToIdx && s.idToIdx[id] == idx
  }

  // ----- Operations

  function Outbox(s: Sockets, idx: nat): seq<Bytes> {
    if idx in s.outboxes then s.outboxes[idx] else []
  }

  /** A packet to a client, or kept for one that is pending; `gone` are the sessions that ended. */
  function Send(s: Sockets, idx: nat, packet: Bytes, gone: set<nat>): (Sockets, bool) {
    if idx in s.clients then
      if idx !in gone then (s.(outboxes := s.outboxes[idx := Outbox(s, idx) + [packet]]), true)
      else (if s.losesOnSend then s.(lost := s.lost + {idx}) else s, false)
    else if idx in s.pending then
      (if s.pending[idx].buffered.Some? then s
       else s.(pending := s.pending[idx := s.pending[idx].(buffered := Some(packet))]), true)
    else (s, false)
  }

  function ConnectionAccepted(s: Sockets, id: nat, idx: nat): Sockets {
    if idx !in s.pending then s
    else
      s.(pending := s.pending[idx := s.pending[idx].(clientId := Some(id))],
         idToIdx := s.idToIdx[id := idx],
         lost := if id in s.idToIdx && s.idToIdx[id] != idx then s.lost + {s.idToIdx[id]} else s.lost)
  }

  /**
   * What the code logs as an internal error: a session whose client id is in the hands of another,
   * which ends the update, or one that has no answer waiting.
   */
  datatype Fault = NoFault | SlotOccupied | ResponseMissing

  function First(a: Fault, b: Fault): Fault {
    if a == NoFault then b else a
  }

  function TakeIn(s: Sockets, c: Completion, gone: set<nat>): (Sockets, Fault) {
    match c
    case Failure(idx) => (s.(lost := s.lost + {idx}), NoFault)
    case Success(idx, id) =>
      if idx !in s.pending then (s, NoFault)
      else
        var s1 := s.(pending := s.pending - {idx});
        if !Points(s, id, idx) then (s1.(current := if s.current > 0 then s.current - 1 else 0), SlotOccupied)
        else
          var s2 := s1.(clients := s.clients[idx := id]);
          if s.pending[idx].buffered.Some? then (Send(s2, idx, s.pending[idx].buffered.value, gone).0, NoFault)
          else (s2, ResponseMissing)
  }

  /** All completions are taken in; the outcome is the first fault, if there is one. */
  function Preupdate(s: Sockets, gone: set<nat>): (Sockets, Fault)
    decreases |s.completions|
  {
    if s.completions == [] then (s.(recvIndex := 0), NoFault)
    else
      var (s1, fault) := TakeIn(s.(completions := s.completions[1..]), s.completions[0], gone);
      if fault == SlotOccupied then (s1, fault)
      else
        TakeInQueue(s.(completions := s.completions[1..]), s.completions[0], gone);
        var (s2, later) := Preupdate(s1, gone);
        (s2, First(fault, later))
  }

  lemma TakeInQueue(s: Sockets, c: Completion, gone: set<nat>)
    ensures TakeIn(s, c, gone).0.completions == s.completions
  {
  }

  /** The first request that fits becomes a pending client; those that do not fit are dropped. */
  function TakeRequest(s: Sockets, capacity: nat): (Sockets, Option<(nat, Bytes)>)
    decreases |s.requests|
  {
    if s.requests == [] then (s, None)
    else
      var (idx, packet) := s.requests[0];
      var s1 := s.(requests := s.requests[1..]);
      if |packet| > capacity then TakeRequest(s1, capacity)
      else
        (s1.(pending := s.pending[idx := PendingClient(None, None)], current := s.current + 1), Some((idx, packet)))
  }

  function Inbox(s: Sockets, idx: nat): seq<Bytes> {
    if idx in s.inboxes then s.inboxes[idx] else []
  }

  /** The clients from `i` on, in order: the first message that fits. */
  function Scan(s: Sockets, i: nat, capacity: nat): (Sockets, Option<(nat, Bytes)>)
    decreases s.nextIdx - i
  {
    if i >= s.nextIdx then (s, None)
    else if i !in s.clients then Scan(s, i + 1, capacity)
    else if Inbox(s, i) == [] then Scan(s.(recvIndex := i + 1), i + 1, capacity)
    else
      var packet := Inbox(s, i)[0];
      var s1 := s.(inboxes := s.inboxes[i := Inbox(s, i)[1..]]);
      if |packet| > capacity then Scan(s1.(lost := s.lost + {i}), i + 1, capacity)
      else (s1, Some((i, packet)))
  }

  function TryRecv(s: Sockets, capacity: nat): (Sockets, Option<(nat, Bytes)>) {
    var (s1, request) := TakeRequest(s, capacity);
    if request.Some? then (s1, request) else Scan(s1, s1.recvIndex, capacity)
  }

  /** The client id that a connection gives up when it is removed. */
  function IdOf(s: Sockets, idx: nat): nat {
    if idx in s.clients then s.clients[idx]
    else if idx in s.pending && s.pending[idx].clientId.Some? then s.pending[idx].clientId.value
    else NO_ID
  }

  function Freed(s: Sockets, idx: nat): map<nat, nat> {
    if Points(s, IdOf(s, idx), idx) then s.idToIdx - {IdOf(s, idx)} else s.idToIdx
  }

  /** One lost client is removed, if it is still there. */
  function Remove(s: Sockets, idx: nat): Sockets {
    var current := if s.current > 0 then s.current - 1 else 0;
    if idx in s.clients then s.(clients := s.clients - {idx}, current := current, idToIdx := Freed(s, idx))
    else if idx in s.pending then s.(pending := s.pending - {idx}, current := current, idToIdx := Freed(s, idx))
    else s
  }

  /** Lost clients, and clients whose session has finished. */
  function Gone(s: Sockets, finished: set<nat>): set<nat> {
    s.lost + (finished * s.clients.Keys)
  }

  function Without<V>(m: map<nat, V>, gone: set<nat>): map<nat, V> {
    m - gone
  }

  function Size(clients: map<nat, nat>, pending: map<nat, PendingClient>): nat {
    |clients| + |pending|
  }

  /** The table without the clients in `gone`, and with nothing left to clear. */
  function Cleared(s: Sockets, gone: set<nat>): Sockets {
    s.(pending := Without(s.pending, gone), clients := Without(s.clients, gone), lost := {},
       current := Size(Without(s.clients, gone), Without(s.pending, gone)), idToIdx := Remaining(s.idToIdx, gone))
  }

  function Remaining(idToIdx: map<nat, nat>, gone: set<nat>): map<nat, nat> {
    map id | id in idToIdx && idToIdx[id] !in gone :: idToIdx[id]
  }

  // ----- What holds throughout

  /** Connections are counted, and none is both pending and accepted. */
  ghost predicate Counted(s: Sockets) {
    s.clients.Keys !! s.pending.Keys && s.current == |s.clients| + |s.pending|
  }

  /** Every entry of the index points to the connection that uses its client id. */
  ghost predicate IndexOk(s: Sockets) {
    forall id :: id in s.idToIdx ==> Live(s, s.idToIdx[id], id)
  }

  /** Every connection in use is the one its client id points to. */
  ghost predicate Exact(s: Sockets) {
    forall idx: nat, id: nat :: Live(s, idx, id) ==> Points(s, id, idx)
  }

  /** While packets come in, a connection whose client id was taken over is marked lost. */
  ghost predicate Overtaken(s: Sockets) {
    forall idx: nat, id: nat :: Live(s, idx, id) ==> Points(s, id, idx) || idx in s.lost
  }

  /** A pending client that was accepted has an answer waiting for it. */
  ghost predicate Answered(s: Sockets) {
    forall idx :: idx in s.pending && s.pending[idx].clientId.Some? ==> s.pending[idx].buffered.Some?
  }

  // ----- The server and the connection handlers

  /**
   * `granted`: handlers that were told to go on, with the client id; `handed`: the client whose
   * packet the caller is looking at; `receiving`: between `preupdate` and `postupdate`.
   */
  datatype World = World(s: Sockets, granted: map<nat, nat>, handed: Option<nat>, receiving: bool)

  predicate Waits(s: Sockets, idx: nat) {
    exists k :: 0 <= k < |s.requests| && s.requests[k].0 == idx
  }

  predicate Promised(w: World, idx: nat, id: nat) {
    (idx in w.granted && w.granted[idx] == id) || Success(idx, id) in w.s.completions
  }

  /** Indices are taken from a counter, and a request that waits is for an index not in use. */
  ghost predicate Fresh(w: World) {
    && (forall k :: 0 <= k < |w.s.requests| ==> w.s.requests[k].0 < w.s.nextIdx)
    && (forall j, k :: 0 <= j < k < |w.s.requests| ==> w.s.requests[j].0 != w.s.requests[k].0)
    && (forall idx :: idx in w.s.pending || idx in w.s.clients ==> idx < w.s.nextIdx && !Waits(w.s, idx))
    && (forall idx: nat, id: nat :: Promised(w, idx, id) ==> idx < w.s.nextIdx && !Waits(w.s, idx))
  }

  /** A promise is for a client that was accepted under that id and has not been taken in yet. */
  ghost predicate PromisesOk(w: World) {
    && (forall idx: nat, id: nat :: Promised(w, idx, id) ==>
          idx !in w.s.clients && (idx in w.s.pending ==> w.s.pending[idx].clientId == Some(id)))
    && (forall idx: nat, id: nat :: Success(idx, id) in w.s.completions ==> idx !in w.granted)
    && (forall j, k :: 0 <= j < k < |w.s.completions| && w.s.completions[j].Success? && w.s.completions[k].Success? ==>
          w.s.completions[j].idx != w.s.completions[k].idx)
  }

  /** A client whose first request is being looked at has no client id yet. */
  ghost predicate HandedOk(w: World) {
    w.handed.Some? && w.handed.value in w.s.pending ==> w.s.pending[w.handed.value].clientId.None?
  }

  ghost predicate Inv(w: World) {
    && Counted(w.s) && IndexOk(w.s) && (if w.receiving then Overtaken(w.s) else Exact(w.s))
    && Fresh(w) && PromisesOk(w) && Answered(w.s) && HandedOk(w)
  }

  datatype Event =
    | Arrive(packet: Bytes)
    | Finish(idx: nat)
    | Fail(idx: nat)
    | Deliver(idx: nat, packet: Bytes)
    | BeginUpdate(gone: set<nat>)
    | Receive(capacity: nat)
    | Accept(id: nat, packet: Bytes, gone: set<nat>)
    | Deny(answer: Option<Bytes>, gone: set<nat>)
    | Drop(idx: nat)
    | SendTo(idx: nat, packet: Bytes, gone: set<nat>)
    | EndUpdate(finished: set<nat>)

  function Answer(s: Sockets, id: nat, idx: nat, packet: Bytes, gone: set<nat>): Sockets {
    Send(ConnectionAccepted(s, id, idx), idx, packet, gone).0
  }

  function Denied(s: Sockets, idx: nat, answer: Option<Bytes>, gone: set<nat>): Sockets {
    var s1 := if answer.Some? then Send(s, idx, answer.value, gone).0 else s;
    s1.(lost := s1.lost + {idx})
  }

  ghost predicate Next(w: World, event: Event, w': World) {
    match event
    case Arrive(packet) =>
      w' == w.(s := w.s.(nextIdx := w.s.nextIdx + 1, requests := w.s.requests + [(w.s.nextIdx, packet)]))
    case Finish(idx) =>
      && idx in w.granted
      && w' == w.(s := w.s.(completions := w.s.completions + [Success(idx, w.granted[idx])]),
                  granted := w.granted - {idx})
    case Fail(idx) =>
      w' == w.(s := w.s.(completions := w.s.completions + [Failure(idx)]), granted := w.granted - {idx})
    case Deliver(idx, packet) =>
      w' == w.(s := w.s.(inboxes := w.s.inboxes[idx := Inbox(w.s, idx) + [packet]]))
    case BeginUpdate(gone) =>
      !w.receiving && w' == w.(s := Preupdate(w.s, gone).0, receiving := true)
    case Receive(capacity) =>
      && w.receiving
      && var (s, r) := TryRecv(w.s, capacity);
         w' == w.(s := s, handed := if r.Some? then Some(r.value.0) else None)
    case Accept(id, packet, gone) =>
      && w.receiving && w.handed.Some?
      && var idx := w.handed.value;
         w' == w.(s := Answer(w.s, id, idx, packet, gone), handed := None,
                  granted := if idx in w.s.pending then w.granted[idx := id] else w.granted)
    case Deny(answer, gone) =>
      && w.receiving && w.handed.Some?
      && w' == w.(s := Denied(w.s, w.handed.value, answer, gone), handed := None)
    case Drop(idx) => w' == w.(s := w.s.(lost := w.s.lost + {idx}))
    case SendTo(idx, packet, gone) => w' == w.(s := Send(w.s, idx, packet, gone).0)
    case EndUpdate(finished) =>
      w.receiving && w' == w.(s := Cleared(w.s, Gone(w.s, finished)), handed := None, receiving := false)
  }

  // ----- What every event keeps

  /** Buffers, marks of lost clients and what was received do not matter to the rest. */
  ghost predicate SameTables(s: Sockets, s': Sockets) {
    && s'.clients == s.clients && s'.idToIdx == s.idToIdx && s'.current == s.current && s.lost <= s'.lost
    && s'.nextIdx == s.nextIdx && s'.requests == s.requests && s'.completions == s.completions
    && s'.pending.Keys == s.pending.Keys
    && forall idx :: idx in s.pending ==>
         && s'.pending[idx].clientId == s.pending[idx].clientId
         && (s.pending[idx].buffered.Some? ==> s'.pending[idx].buffered.Some?)
  }

  lemma SameTablesInv(w: World, s': Sockets, handed: Option<nat>)
    requires Inv(w) && SameTables(w.s, s')
    requires handed.Some? && handed.value in w.s.pending ==> w.s.pending[handed.value].clientId.None?
    ensures Inv(w.(s := s', handed := handed))
  {
    SameCounts(w.s, s');
    SameFresh(w, s', handed);
    SamePromises(w, s', handed);
    hide Fresh;
    hide PromisesOk;
    hide Counted;
    assert forall idx: nat, id: nat :: Live(s', idx, id) <==> Live(w.s, idx, id);
    assert forall idx: nat, id: nat :: Points(s', id, idx) <==> Points(w.s, id, idx);
  }

  lemma SameCounts(s: Sockets, s': Sockets)
    requires Counted(s) && SameTables(s, s')
    ensures Counted(s')
  {
    assert |s'.pending.Keys| == |s'.pending| && |s.pending.Keys| == |s.pending|;
  }

  lemma SameFresh(w: World, s': Sockets, handed: Option<nat>)
    requires Fresh(w) && SameTables(w.s, s')
    ensures Fresh(w.(s := s', handed := handed))
  {
    assert forall idx :: Waits(s', idx) <==> Waits(w.s, idx);
    assert forall idx: nat, id: nat :: Promised(w.(s := s', handed := handed), idx, id) <==> Promised(w, idx, id);
  }

  lemma SamePromises(w: World, s': Sockets, handed: Option<nat>)
    requires PromisesOk(w) && SameTables(w.s, s')
    ensures PromisesOk(w.(s := s', handed := handed))
  {
    assert forall idx: nat, id: nat :: Promised(w.(s := s', handed := handed), idx, id) <==> Promised(w, idx, id);
  }

  /** Sending touches what is kept for a pending client, marks and outboxes, and nothing else. */
  lemma SendOnly(s: Sockets, idx: nat, packet: Bytes, gone: set<nat>)
    ensures var s' := Send(s, idx, packet, gone).0;
            && s' == s.(pending := s'.pending, lost := s'.lost, outboxes := s'.outboxes) && s.lost <= s'.lost
            && s'.pending == KeptFor(s, idx, packet) && s'.pending.Keys == s.pending.Keys
  {
    hide Outbox;
    assert KeptFor(s, idx, packet).Keys == s.pending.Keys;
    if idx in s.clients {
    } else if idx in s.pending {
    }
  }

  function KeptFor(s: Sockets, idx: nat, packet: Bytes): map<nat, PendingClient> {
    if idx in s.clients || idx !in s.pending || s.pending[idx].buffered.Some? then s.pending
    else s.pending[idx := s.pending[idx].(buffered := Some(packet))]
  }

  lemma SendSame(s: Sockets, idx: nat, packet: Bytes, gone: set<nat>)
    ensures SameTables(s, Send(s, idx, packet, gone).0)
    ensures idx in s.pending && idx !in s.clients ==> Send(s, idx, packet, gone).0.pending[idx].buffered.Some?
  {
    SendOnly(s, idx, packet, gone);
    hide Send;
  }

  lemma SameTwice(s: Sockets, s1: Sockets, s2: Sockets)
    requires SameTables(s, s1) && SameTables(s1, s2)
    ensures SameTables(s, s2)
  {
  }

  lemma {:induction false} ScanSame(s: Sockets, i: nat, capacity: nat)
    ensures SameTables(s, Scan(s, i, capacity).0)
    ensures var r := Scan(s, i, capacity).1; r.Some? ==> r.value.0 in s.clients
    decreases s.nextIdx - i
  {
    hide SameTables;
    SameSelf(s);
    if i >= s.nextIdx {
    } else if i !in s.clients {
      ScanSame(s, i + 1, capacity);
    } else if Inbox(s, i) == [] {
      ScanSame(s.(recvIndex := i + 1), i + 1, capacity);
      ScanStep(s, s.(recvIndex := i + 1));
      SameTwice(s, s.(recvIndex := i + 1), Scan(s, i, capacity).0);
    } else {
      var s1 := s.(inboxes := s.inboxes[i := Inbox(s, i)[1..]]);
      var s2 := s1.(lost := s.lost + {i});
      ScanStep(s, s1);
      ScanStep(s, s2);
      if |Inbox(s, i)[0]| > capacity {
        ScanSame(s2, i + 1, capacity);
        SameTwice(s, s2, Scan(s, i, capacity).0);
      }
    }
  }

  lemma SameSelf(s: Sockets)
    ensures SameTables(s, s)
  {
  }

  lemma ScanStep(s: Sockets, s': Sockets)
    requires s' == s.(recvIndex := s'.recvIndex, inboxes := s'.inboxes, lost := s'.lost) && s.lost <= s'.lost
    ensures SameTables(s, s')
  {
  }

  /** Dropping the first request. */
  lemma RequestDropped(w: World)
    requires Inv(w) && w.s.requests != []
    ensures Inv(w.(s := w.s.(requests := w.s.requests[1..])))
    ensures var s := w.s.(requests := w.s.requests[1..]);
            var idx := w.s.requests[0].0;
            && idx < w.s.nextIdx && idx !in w.s.pending && idx !in w.s.clients && !Waits(s, idx)
            && forall id: nat :: !Promised(w, idx, id)
  {
    var s := w.s.(requests := w.s.requests[1..]);
    assert Waits(w.s, w.s.requests[0].0);
    assert forall k :: 0 <= k < |s.requests| ==> s.requests[k] == w.s.requests[k + 1];
    assert forall idx :: Waits(s, idx) ==> Waits(w.s, idx);
    hide Waits;
    assert forall idx: nat, id: nat :: Promised(w.(s := s), idx, id) <==> Promised(w, idx, id);
    assert forall idx: nat, id: nat :: Live(s, idx, id) <==> Live(w.s, idx, id);
    assert forall idx: nat, id: nat :: Points(s, id, idx) <==> Points(w.s, id, idx);
  }

  /** The table with a new pending client. */
  function WithPending(s: Sockets, idx: nat): Sockets {
    s.(pending := s.pending[idx := PendingClient(None, None)], current := s.current + 1)
  }

  lemma AddedCounted(s: Sockets, idx: nat)
    requires Counted(s) && idx !in s.pending && idx !in s.clients
    ensures Counted(WithPending(s, idx))
  {
    var pending := WithPending(s, idx).pending;
    assert pending.Keys == s.pending.Keys + {idx};
    assert |pending.Keys| == |pending| && |s.pending.Keys| == |s.pending|;
  }

  lemma AddedFresh(w: World, idx: nat)
    requires Fresh(w) && idx < w.s.nextIdx && !Waits(w.s, idx)
    ensures Fresh(w.(s := WithPending(w.s, idx), handed := Some(idx)))
  {
    var w' := w.(s := WithPending(w.s, idx), handed := Some(idx));
    assert forall i :: Waits(w'.s, i) <==> Waits(w.s, i);
    hide Waits;
    assert forall i: nat, id: nat :: Promised(w', i, id) <==> Promised(w, i, id);
  }

  lemma AddedPromises(w: World, idx: nat)
    requires PromisesOk(w) && forall id: nat :: !Promised(w, idx, id)
    ensures PromisesOk(w.(s := WithPending(w.s, idx), handed := Some(idx)))
  {
    var w' := w.(s := WithPending(w.s, idx), handed := Some(idx));
    assert forall i: nat, id: nat :: Promised(w', i, id) <==> Promised(w, i, id);
  }

  /** A new pending client under an index that is not in use. */
  lemma PendingAdded(w: World, idx: nat)
    requires Inv(w) && idx < w.s.nextIdx && idx !in w.s.pending && idx !in w.s.clients && !Waits(w.s, idx)
    requires forall id: nat :: !Promised(w, idx, id)
    ensures Inv(w.(s := WithPending(w.s, idx), handed := Some(idx)))
  {
    hide Fresh;
    hide PromisesOk;
    hide Counted;
    hide Waits;
    hide Promised;
    var s := WithPending(w.s, idx);
    AddedCounted(w.s, idx);
    AddedFresh(w, idx);
    AddedPromises(w, idx);
    assert forall i: nat, id: nat :: Live(s, i, id) <==> Live(w.s, i, id);
    assert forall i: nat, id: nat :: Points(s, id, i) <==> Points(w.s, id, i);
  }

  lemma {:induction false} TakeRequestInv(w: World, capacity: nat)
    requires Inv(w)
    ensures var (s, r) := TakeRequest(w.s, capacity);
            && Inv(w.(s := s, handed := if r.Some? then Some(r.value.0) else w.handed))
    decreases |w.s.requests|
  {
    hide Inv;
    if w.s.requests != [] {
      RequestDropped(w);
      var (idx, packet) := w.s.requests[0];
      var w1 := w.(s := w.s.(requests := w.s.requests[1..]));
      if |packet| > capacity {
        TakeRequestInv(w1, capacity);
      } else {
        SamePromise(w, w1, idx);
        PendingAdded(w1, idx);
      }
    }
  }

  lemma SamePromise(w: World, w': World, idx: nat)
    requires w'.granted == w.granted && w'.s.completions == w.s.completions
    requires forall id: nat :: !Promised(w, idx, id)
    ensures forall id: nat :: !Promised(w', idx, id)
  {
    assert forall id: nat :: Promised(w', idx, id) <==> Promised(w, idx, id);
  }

  lemma ReceiveInv(w: World, capacity: nat)
    requires Inv(w)
    ensures var (s, r) := TryRecv(w.s, capacity);
            Inv(w.(s := s, handed := if r.Some? then Some(r.value.0) else None))
  {
    hide Inv;
    hide SameTables;
    hide TakeRequest;
    hide Scan;
    var (s1, r1) := TakeRequest(w.s, capacity);
    TakeRequestInv(w, capacity);
    if r1.None? {
      var w1 := w.(s := s1);
      ScanSame(s1, s1.recvIndex, capacity);
      var (s, r) := Scan(s1, s1.recvIndex, capacity);
      AcceptedNotPending(w1);
      SameTablesInv(w1, s, if r.Some? then Some(r.value.0) else None);
    }
  }

  lemma AcceptedNotPending(w: World)
    requires Inv(w)
    ensures forall idx :: idx in w.s.clients ==> idx !in w.s.pending
  {
  }

  // ----- Accepting a client

  /** The table once pending client `idx` has been accepted as `id` and answered. */
  predicate AcceptedAs(s: Sockets, id: nat, idx: nat, s': Sockets) {
    && idx in s.pending && s'.pending.Keys == s.pending.Keys
    && s'.pending[idx].clientId == Some(id) && s'.pending[idx].buffered.Some?
    && (forall i :: i in s.pending && i != idx ==> s'.pending[i] == s.pending[i])
    && s' == s.(pending := s'.pending, idToIdx := s.idToIdx[id := idx], lost := s'.lost)
    && s.lost <= s'.lost && (id in s.idToIdx && s.idToIdx[id] != idx ==> s.idToIdx[id] in s'.lost)
  }

  lemma AnswerAccepts(s: Sockets, id: nat, idx: nat, packet: Bytes, gone: set<nat>)
    requires idx in s.pending && idx !in s.clients
    ensures AcceptedAs(s, id, idx, Answer(s, id, idx, packet, gone))
  {
  }

  lemma AcceptIndex(s: Sockets, id: nat, idx: nat, s': Sockets)
    requires AcceptedAs(s, id, idx, s') && idx !in s.clients && s.pending[idx].clientId.None?
    requires IndexOk(s) && Overtaken(s)
    ensures IndexOk(s') && Overtaken(s')
  {
    assert forall i: nat, k: nat :: i != idx ==> (Live(s', i, k) <==> Live(s, i, k));
    assert forall k: nat :: Live(s', idx, k) <==> k == id;
    assert forall k: nat :: !Live(s, idx, k);
    assert forall i: nat, k: nat :: k != id ==> (Points(s', k, i) <==> Points(s, k, i));
    assert Points(s', id, idx);
  }

  lemma AcceptPromises(w: World, id: nat, idx: nat, w': World)
    requires AcceptedAs(w.s, id, idx, w'.s) && idx !in w.s.clients && w.s.pending[idx].clientId.None?
    requires w'.granted == w.granted[idx := id] && Fresh(w) && PromisesOk(w)
    ensures Fresh(w') && PromisesOk(w')
  {
    assert forall k: nat :: !Promised(w, idx, k);
    assert forall i: nat, k: nat :: i != idx ==> (Promised(w', i, k) <==> Promised(w, i, k));
    forall k: nat
      ensures Success(idx, k) !in w.s.completions
    {
      assert !Promised(w, idx, k);
    }
    assert forall k: nat :: Promised(w', idx, k) ==> k == id;
    assert forall i :: Waits(w'.s, i) <==> Waits(w.s, i);
    hide Waits;
    hide Promised;
  }

  lemma AcceptInv(w: World, id: nat, packet: Bytes, gone: set<nat>, w': World)
    requires Inv(w) && Next(w, Accept(id, packet, gone), w')
    ensures Inv(w')
  {
    hide Fresh;
    hide PromisesOk;
    hide IndexOk;
    hide Overtaken;
    hide Answer;
    hide SameTables;
    var idx := w.handed.value;
    if idx in w.s.pending {
      AnswerAccepts(w.s, id, idx, packet, gone);
      AcceptIndex(w.s, id, idx, w'.s);
      AcceptPromises(w, id, idx, w');
      assert |w'.s.pending.Keys| == |w'.s.pending| && |w.s.pending.Keys| == |w.s.pending|;
    } else {
      SpuriousAccept(w.s, id, idx, packet, gone);
      SameTablesInv(w, w'.s, None);
    }
  }

  lemma SpuriousAccept(s: Sockets, id: nat, idx: nat, packet: Bytes, gone: set<nat>)
    requires idx !in s.pending
    ensures SameTables(s, Answer(s, id, idx, packet, gone))
  {
    SendSame(s, idx, packet, gone);
  }

  // ----- Clearing lost clients

  lemma ClearedLive(s: Sockets, gone: set<nat>, idx: nat, id: nat)
    ensures Live(Cleared(s, gone), idx, id) <==> Live(s, idx, id) && idx !in gone
  {
    hide Remaining;
    hide Size;
  }

  lemma ClearedPoints(s: Sockets, gone: set<nat>, idx: nat, id: nat)
    ensures Points(Cleared(s, gone), id, idx) <==> Points(s, id, idx) && idx !in gone
  {
    hide Size;
  }

  lemma ClearIndex(s: Sockets, gone: set<nat>)
    requires IndexOk(s) && Overtaken(s) && s.lost <= gone
    ensures IndexOk(Cleared(s, gone)) && Exact(Cleared(s, gone))
  {
    hide Live;
    hide Points;
    hide Cleared;
    var s' := Cleared(s, gone);
    forall idx: nat, id: nat
      ensures Live(s', idx, id) <==> Live(s, idx, id) && idx !in gone
      ensures Points(s', id, idx) <==> Points(s, id, idx) && idx !in gone
    {
      ClearedLive(s, gone, idx, id);
      ClearedPoints(s, gone, idx, id);
    }
    RemainingPoints(s, gone);
  }

  lemma RemainingPoints(s: Sockets, gone: set<nat>)
    ensures forall id :: id in Cleared(s, gone).idToIdx ==>
              id in s.idToIdx && Cleared(s, gone).idToIdx[id] == s.idToIdx[id] && s.idToIdx[id] !in gone
  {
  }

  lemma ClearPromises(w: World, gone: set<nat>, w': World)
    requires w'.s == Cleared(w.s, gone) && w'.granted == w.granted && Fresh(w) && PromisesOk(w)
    ensures Fresh(w') && PromisesOk(w')
  {
    hide Cleared;
    ClearedKeys(w.s, gone);
    FewerPromises(w, w');
  }

  lemma ClearedKeys(s: Sockets, gone: set<nat>)
    ensures var s' := Cleared(s, gone);
            && s'.requests == s.requests && s'.completions == s.completions && s'.nextIdx == s.nextIdx
            && (forall i :: i in s'.clients ==> i in s.clients)
            && (forall i :: i in s'.pending ==> i in s.pending && s'.pending[i] == s.pending[i])
  {
    hide Remaining;
    hide Size;
  }

  /** Fewer connections, with the channels unchanged. */
  lemma FewerPromises(w: World, w': World)
    requires w'.granted == w.granted && Fresh(w) && PromisesOk(w)
    requires w'.s.requests == w.s.requests && w'.s.completions == w.s.completions && w'.s.nextIdx == w.s.nextIdx
    requires forall i :: i in w'.s.clients ==> i in w.s.clients
    requires forall i :: i in w'.s.pending ==> i in w.s.pending && w'.s.pending[i] == w.s.pending[i]
    ensures Fresh(w') && PromisesOk(w')
  {
    assert forall i: nat, k: nat :: Promised(w', i, k) <==> Promised(w, i, k);
    assert forall i :: Waits(w'.s, i) <==> Waits(w.s, i);
  }

  lemma ClearAnswered(s: Sockets, gone: set<nat>)
    requires Answered(s) && Counted(s)
    ensures Answered(Cleared(s, gone)) && Counted(Cleared(s, gone))
  {
    hide Remaining;
  }

  lemma EndUpdateInv(w: World, finished: set<nat>, w': World)
    requires Inv(w) && Next(w, EndUpdate(finished), w')
    ensures Inv(w')
  {
    hide Fresh;
    hide PromisesOk;
    hide IndexOk;
    hide Overtaken;
    hide Exact;
    hide Answered;
    hide Counted;
    hide Cleared;
    var gone := Gone(w.s, finished);
    ClearIndex(w.s, gone);
    ClearPromises(w, gone, w');
    ClearAnswered(w.s, gone);
  }

  // ----- Taking in completed sessions

  lemma CompletionPopped(w: World)
    requires Inv(w) && w.s.completions != []
    ensures Inv(w.(s := w.s.(completions := w.s.completions[1..])))
    ensures w.s.completions[0].Success? ==>
              var (idx, id) := (w.s.completions[0].idx, w.s.completions[0].id);
              && idx !in w.s.clients && (idx in w.s.pending ==> w.s.pending[idx].clientId == Some(id))
              && forall k: nat :: !Promised(w.(s := w.s.(completions := w.s.completions[1..])), idx, k)
  {
    var w' := w.(s := w.s.(completions := w.s.completions[1..]));
    assert forall k :: 0 <= k < |w'.s.completions| ==> w'.s.completions[k] == w.s.completions[k + 1];
    assert forall i: nat, k: nat :: Promised(w', i, k) ==> Promised(w, i, k);
    assert forall i :: Waits(w'.s, i) <==> Waits(w.s, i);
    hide Waits;
    var c := w.s.completions[0];
    if c.Success? {
      assert c in w.s.completions && Promised(w, c.idx, c.id);
    }
    assert forall i: nat, k: nat :: Live(w'.s, i, k) <==> Live(w.s, i, k);
    assert forall i: nat, k: nat :: Points(w'.s, k, i) <==> Points(w.s, k, i);
  }

  /** The table with a pending client taken in. */
  function WithClient(s: Sockets, idx: nat, id: nat): Sockets {
    s.(pending := s.pending - {idx}, clients := s.clients[idx := id])
  }

  lemma ClientCounted(s: Sockets, idx: nat, id: nat)
    requires Counted(s) && idx in s.pending && idx !in s.clients
    ensures Counted(WithClient(s, idx, id))
  {
    var s' := WithClient(s, idx, id);
    assert s'.pending.Keys == s.pending.Keys - {idx} && s'.clients.Keys == s.clients.Keys + {idx};
    assert |s'.pending.Keys| == |s'.pending| && |s.pending.Keys| == |s.pending|;
    assert |s'.clients.Keys| == |s'.clients| && |s.clients.Keys| == |s.clients|;
  }

  lemma ClientPromises(w: World, idx: nat, id: nat)
    requires Fresh(w) && PromisesOk(w) && idx in w.s.pending && forall k: nat :: !Promised(w, idx, k)
    ensures Fresh(w.(s := WithClient(w.s, idx, id))) && PromisesOk(w.(s := WithClient(w.s, idx, id)))
  {
    var w' := w.(s := WithClient(w.s, idx, id));
    assert forall i: nat, k: nat :: Promised(w', i, k) <==> Promised(w, i, k);
    assert forall i :: Waits(w'.s, i) <==> Waits(w.s, i);
  }

  lemma ClientTakenIn(w: World, idx: nat, id: nat)
    requires Inv(w) && idx in w.s.pending && w.s.pending[idx].clientId == Some(id)
    requires forall k: nat :: !Promised(w, idx, k)
    ensures Inv(w.(s := WithClient(w.s, idx, id)))
  {
    hide Fresh;
    hide PromisesOk;
    hide Promised;
    var s := WithClient(w.s, idx, id);
    ClientCounted(w.s, idx, id);
    ClientPromises(w, idx, id);
    assert forall i: nat, k: nat :: Live(s, i, k) <==> Live(w.s, i, k);
    assert forall i: nat, k: nat :: Points(s, k, i) <==> Points(w.s, k, i);
  }

  /** Between updates a completed session is tied to its client id and has its answer waiting. */
  lemma SessionTied(w: World, idx: nat, id: nat)
    requires Inv(w) && !w.receiving && idx in w.s.pending && w.s.pending[idx].clientId == Some(id)
    ensures Points(w.s, id, idx) && w.s.pending[idx].buffered.Some? && idx !in w.s.clients
  {
    hide Fresh;
    hide PromisesOk;
    hide IndexOk;
    assert Live(w.s, idx, id);
  }

  lemma TakeInInv(w: World, gone: set<nat>)
    requires Inv(w) && !w.receiving && w.s.completions != []
    ensures var rest := w.s.(completions := w.s.completions[1..]);
            var (s, fault) := TakeIn(rest, w.s.completions[0], gone);
            fault == NoFault && Inv(w.(s := s))
  {
    hide Inv;
    hide Send;
    hide SameTables;
    var c, w1 := w.s.completions[0], w.(s := w.s.(completions := w.s.completions[1..]));
    CompletionPopped(w);
    match c
    case Failure(idx) =>
      MarkLost(w1, idx);
    case Success(idx, id) =>
      if idx in w1.s.pending {
        SessionTied(w1, idx, id);
        ClientTakenIn(w1, idx, id);
        var s := WithClient(w1.s, idx, id);
        SendSame(s, idx, w1.s.pending[idx].buffered.value, gone);
        HandedStays(w1.(s := s));
        SameTablesInv(w1.(s := s), Send(s, idx, w1.s.pending[idx].buffered.value, gone).0, w1.handed);
      }
  }

  lemma HandedStays(w: World)
    requires Inv(w)
    ensures w.handed.Some? && w.handed.value in w.s.pending ==> w.s.pending[w.handed.value].clientId.None?
  {
  }

  lemma MarkLost(w: World, idx: nat)
    requires Inv(w)
    ensures Inv(w.(s := w.s.(lost := w.s.lost + {idx})))
  {
    hide Inv;
    HandedStays(w);
    LostSame(w.s, idx);
    SameTablesInv(w, w.s.(lost := w.s.lost + {idx}), w.handed);
  }

  lemma LostSame(s: Sockets, idx: nat)
    ensures SameTables(s, s.(lost := s.lost + {idx}))
  {
  }

  /** The loop of `preupdate` reaches neither internal error, and keeps the invariant. */
  lemma {:induction false} PreupdateInv(w: World, gone: set<nat>)
    requires Inv(w) && !w.receiving
    ensures Preupdate(w.s, gone).1 == NoFault
    ensures Inv(w.(s := Preupdate(w.s, gone).0, receiving := true))
    decreases |w.s.completions|
  {
    hide Inv;
    hide TakeIn;
    hide SameTables;
    if w.s.completions == [] {
      HandedStays(w);
      ScanStep(w.s, w.s.(recvIndex := 0));
      SameTablesInv(w, w.s.(recvIndex := 0), w.handed);
      StartReceiving(w.(s := w.s.(recvIndex := 0)));
    } else {
      var rest := w.s.(completions := w.s.completions[1..]);
      TakeInInv(w, gone);
      TakeInQueue(rest, w.s.completions[0], gone);
      PreupdateInv(w.(s := TakeIn(rest, w.s.completions[0], gone).0), gone);
    }
  }

  lemma StartReceiving(w: World)
    requires Inv(w) && !w.receiving
    ensures Inv(w.(receiving := true))
  {
    hide Live;
    hide Points;
    FewerPromises(w, w.(receiving := true));
    hide Fresh;
    hide PromisesOk;
  }

  // ----- The connection handlers

  lemma ArrivePromises(w: World, packet: Bytes, w': World)
    requires Fresh(w) && PromisesOk(w) && Next(w, Arrive(packet), w')
    ensures Fresh(w') && PromisesOk(w')
  {
    assert forall i: nat, k: nat :: Promised(w', i, k) <==> Promised(w, i, k);
    assert forall i :: Waits(w'.s, i) ==> Waits(w.s, i) || i == w.s.nextIdx;
    hide Waits;
    hide Promised;
  }

  lemma FinishPromises(w: World, idx: nat, w': World)
    requires Fresh(w) && PromisesOk(w) && Next(w, Finish(idx), w')
    ensures Fresh(w') && PromisesOk(w')
  {
    var done := Success(idx, w.granted[idx]);
    assert forall c :: c in w'.s.completions <==> c in w.s.completions || c == done;
    assert forall i: nat, k: nat :: Promised(w', i, k) <==> Promised(w, i, k);
    assert forall i :: Waits(w'.s, i) <==> Waits(w.s, i);
    hide Waits;
    forall k: nat
      ensures Success(idx, k) !in w.s.completions
    {
    }
    assert forall j :: 0 <= j < |w.s.completions| && w.s.completions[j].Success? ==> w.s.completions[j].idx != idx by {
      forall j | 0 <= j < |w.s.completions| && w.s.completions[j].Success?
        ensures w.s.completions[j].idx != idx
      {
        assert Success(w.s.completions[j].idx, w.s.completions[j].id) in w.s.completions;
      }
    }
  }

  lemma FailPromises(w: World, idx: nat, w': World)
    requires Fresh(w) && PromisesOk(w) && Next(w, Fail(idx), w')
    ensures Fresh(w') && PromisesOk(w')
  {
    assert forall c :: c in w'.s.completions <==> c in w.s.completions || c == Failure(idx);
    assert forall i: nat, k: nat :: Promised(w', i, k) ==> Promised(w, i, k);
    assert forall i :: Waits(w'.s, i) <==> Waits(w.s, i);
    hide Waits;
  }

  /** The tables are as they were; only the channels have changed. */
  lemma ChannelsInv(w: World, w': World)
    requires Inv(w) && Fresh(w') && PromisesOk(w') && w'.receiving == w.receiving && w'.handed == w.handed
    requires w'.s == w.s.(completions := w'.s.completions, requests := w'.s.requests, nextIdx := w'.s.nextIdx)
    ensures Inv(w')
  {
    hide Fresh;
    hide PromisesOk;
    assert forall i: nat, k: nat :: Live(w'.s, i, k) <==> Live(w.s, i, k);
    assert forall i: nat, k: nat :: Points(w'.s, k, i) <==> Points(w.s, k, i);
  }

  lemma HandlerInv(w: World, event: Event, w': World)
    requires Inv(w) && Next(w, event, w') && (event.Arrive? || event.Finish? || event.Fail?)
    ensures Inv(w')
  {
    InvParts(w);
    hide Inv;
    match event
    case Arrive(packet) =>
      ArrivePromises(w, packet, w');
      ChannelsInv(w, w');
    case Finish(idx) =>
      FinishPromises(w, idx, w');
      ChannelsInv(w, w');
    case Fail(idx) =>
      FailPromises(w, idx, w');
      ChannelsInv(w, w');
  }

  lemma InvParts(w: World)
    requires Inv(w)
    ensures Fresh(w) && PromisesOk(w)
  {
  }

  lemma DenyInv(w: World, answer: Option<Bytes>, gone: set<nat>, w': World)
    requires Inv(w) && Next(w, Deny(answer, gone), w')
    ensures Inv(w')
  {
    hide Inv;
    hide Send;
    hide SameTables;
    var idx := w.handed.value;
    SameSelf(w.s);
    var s1 := w.s;
    if answer.Some? {
      SendSame(w.s, idx, answer.value, gone);
      s1 := Send(w.s, idx, answer.value, gone).0;
    }
    LostSame(s1, idx);
    SameTwice(w.s, s1, w'.s);
    SameTablesInv(w, w'.s, None);
  }

  lemma NextInv(w: World, event: Event, w': World)
    requires Inv(w) && Next(w, event, w')
    ensures Inv(w')
  {
    hide Inv;
    hide SameTables;
    hide Preupdate;
    hide TryRecv;
    hide Answer;
    hide Denied;
    hide Cleared;
    hide Send;
    HandedStays(w);
    match event
    case Arrive(_) => HandlerInv(w, event, w');
    case Finish(_) => HandlerInv(w, event, w');
    case Fail(_) => HandlerInv(w, event, w');
    case Deliver(_, _) =>
      ScanStep(w.s, w'.s);
      SameTablesInv(w, w'.s, w.handed);
    case BeginUpdate(gone) => PreupdateInv(w, gone);
    case Receive(capacity) => ReceiveInv(w, capacity);
    case Accept(id, packet, gone) => AcceptInv(w, id, packet, gone, w');
    case Deny(answer, gone) => DenyInv(w, answer, gone, w');
    case Drop(idx) => MarkLost(w, idx);
    case SendTo(idx, packet, gone) =>
      SendSame(w.s, idx, packet, gone);
      SameTablesInv(w, w'.s, w.handed);
    case EndUpdate(finished) => EndUpdateInv(w, finished, w');
  }

  // ----- Runs

  ghost predicate New(w: World) {
    && w.s.pending == map[] && w.s.clients == map[] && w.s.idToIdx == map[] && w.s.lost == {} && w.s.current == 0
    && w.s.nextIdx == 0 && w.s.requests == [] && w.s.completions == [] && w.s.inboxes == map[] && w.s.outboxes == map[]
    && w.s.recvIndex == 0
    && w.granted == map[] && w.handed.None? && !w.receiving
  }

  ghost predicate Run(states: seq<World>, events: seq<Event>) {
    && |states| == |events| + 1 && New(states[0])
    && forall k :: 0 <= k < |events| ==> Next(states[k], events[k], states[k + 1])
  }

  lemma NewInv(w: World)
    requires New(w)
    ensures Inv(w)
  {
  }

  /** The invariant holds in every state of every run of the server with its connection handlers. */
  lemma {:induction false} RunInv(states: seq<World>, events: seq<Event>, i: nat)
    requires Run(states, events) && i < |states|
    ensures Inv(states[i])
  {
    hide Inv;
    hide Next;
    if i == 0 {
      NewInv(states[0]);
    } else {
      RunInv(states, events, i - 1);
      NextInv(states[i - 1], events[i - 1], states[i]);
    }
  }

  /** In every run connections are counted exactly, and none is both pending and accepted. */
  lemma RunCounted(states: seq<World>, events: seq<Event>, i: nat)
    requires Run(states, events) && i < |states|
    ensures var s := states[i].s; s.clients.Keys !! s.pending.Keys && s.current == |s.clients| + |s.pending|
  {
    hide Run;
    hide IndexOk;
    hide Fresh;
    hide PromisesOk;
    RunInv(states, events, i);
  }

  /** `preupdate` never finds a client id in the hands of another session, nor one without its answer. */
  lemma NoInternalError(states: seq<World>, events: seq<Event>, i: nat, gone: set<nat>)
    requires Run(states, events) && i < |states| && !states[i].receiving
    ensures Preupdate(states[i].s, gone).1 == NoFault
  {
    hide Run;
    hide Inv;
    hide Preupdate;
    RunInv(states, events, i);
    PreupdateInv(states[i], gone);
  }

  /** After each `postupdate` the index is exactly the inverse of the connections in use. */
  lemma IndexIsInverse(states: seq<World>, events: seq<Event>, i: nat, idx: nat, id: nat)
    requires Run(states, events) && i < |states| && !states[i].receiving
    ensures Points(states[i].s, id, idx) <==> Live(states[i].s, idx, id)
  {
    hide Run;
    hide Fresh;
    hide PromisesOk;
    hide Counted;
    RunInv(states, events, i);
  }
}

/** The server object shared by both kinds of socket. */
module SocketServers {
  import opened Base
  import opened ClientAddresses
  import opened SocketTables
  import T = SocketTables

  lemma RequestFirst(s: Sockets, capacity: nat)
    requires s.requests != []
    ensures var (idx, packet) := s.requests[0];
            var s1 := s.(requests := s.requests[1..]);
            TakeRequest(s, capacity) ==
              if |packet| > capacity then TakeRequest(s1, capacity)
              else
                (s1.(pending := s.pending[idx := PendingClient(None, None)], current := s.current + 1),
                 Some((idx, packet)))
  {
  }

  lemma RequestNone(s: Sockets, capacity: nat)
    requires s.requests == []
    ensures TakeRequest(s, capacity) == (s, None)
  {
  }

  class SocketServer {
    const losesOnSend: bool
    var pendingClients: map<nat, PendingClient>
    var clients: map<nat, nat>
    var clientIdToIdx: map<nat, nat>
    var lostClients: set<nat>
    var currentClients: nat
    var recvIndex: nat
    var clientIterator: nat
    var connectionRequests: seq<(nat, Bytes)>
    var completedSessions: seq<Completion>
    var inboxes: map<nat, seq<Bytes>>
    var outboxes: map<nat, seq<Bytes>>

    ghost function View(): Sockets
      reads this
    {
      Sockets(pendingClients, clients, clientIdToIdx, lostClients, currentClients, recvIndex, clientIterator,
              connectionRequests, completedSessions, inboxes, outboxes, losesOnSend)
    }

    constructor (losesOnSend: bool)
      ensures New(World(View(), map[], None, false)) && this.losesOnSend == losesOnSend
    {
      this.losesOnSend := losesOnSend;
      pendingClients, clients, clientIdToIdx, lostClients := map[], map[], map[], {};
      inboxes, outboxes := map[], map[];
      currentClients, recvIndex, clientIterator, connectionRequests, completedSessions := 0, 0, 0, [], [];
    }

    method Disconnect(addr: SocketAddr)
      requires IsIndexed(addr)
      modifies `lostClients
      ensures View() == old(View()).(lost := old(lostClients) + {FromAddr(addr)})
    {
      var idx := ClientIdxFromAddr(addr);
      lostClients := lostClients + {idx};
    }

    /** An acceptance for a client that is not pending is spurious. */
    method ConnectionAccepted(id: nat, addr: SocketAddr)
      requires IsIndexed(addr)
      modifies `pendingClients, `clientIdToIdx, `lostClients
      ensures View() == T.ConnectionAccepted(old(View()), id, FromAddr(addr))
    {
      var idx := ClientIdxFromAddr(addr);
      if idx !in pendingClients {
        return;
      }
      pendingClients := pendingClients[idx := pendingClients[idx].(clientId := Some(id))];
      if id in clientIdToIdx {
        var previous := clientIdToIdx[id];
        if previous != idx {
          lostClients := lostClients + {previous};
        }
      }
      clientIdToIdx := clientIdToIdx[id := idx];
    }

    method Send(addr: SocketAddr, packet: Bytes, gone: set<nat>) returns (ok: bool)
      requires IsIndexed(addr)
      modifies `pendingClients, `lostClients, `outboxes
      ensures (View(), ok) == T.Send(old(View()), FromAddr(addr), packet, gone)
    {
      var idx := ClientIdxFromAddr(addr);
      if idx !in clients {
        if idx in pendingClients {
          var pending := pendingClients[idx];
          if pending.buffered.None? {
            pendingClients := pendingClients[idx := pending.(buffered := Some(packet))];
          }
          return true;
        }
        return false;
      }
      if idx in gone {
        if losesOnSend {
          Disconnect(addr);
        }
        return false;
      }
      outboxes := outboxes[idx := (if idx in outboxes then outboxes[idx] else []) + [packet]];
      return true;
    }

    /** Takes in the sessions that were set up; `fault` is the first internal error reached. */
    method Preupdate(gone: set<nat>) returns (fault: Fault)
      requires forall k :: 0 <= k < |completedSessions| ==> completedSessions[k].idx < U64
      modifies `pendingClients, `clients, `lostClients, `currentClients, `recvIndex, `completedSessions, `outboxes
      ensures (View(), fault) == T.Preupdate(old(View()), gone)
    {
      hide T.TakeIn;
      fault := NoFault;
      while completedSessions != []
        invariant var (s, later) := T.Preupdate(View(), gone);
                  T.Preupdate(old(View()), gone) == (s, First(fault, later))
        invariant fault != SlotOccupied
        invariant forall k :: 0 <= k < |completedSessions| ==> completedSessions[k].idx < U64
        decreases |completedSessions|
      {
        var session := completedSessions[0];
        completedSessions := completedSessions[1..];
        TakeInQueue(View(), session, gone);
        var bad := TakeIn(session, gone);
        fault := First(fault, bad);
        if bad == SlotOccupied {
          return;
        }
      }
      recvIndex := 0;
    }

    method TakeIn(session: Completion, gone: set<nat>) returns (fault: Fault)
      requires session.idx < U64
      modifies `pendingClients, `clients, `lostClients, `currentClients, `outboxes
      ensures (View(), fault) == T.TakeIn(old(View()), session, gone)
    {
      match session
      case Failure(idx) =>
        lostClients := lostClients + {idx};
        return NoFault;
      case Success(idx, id) =>
        if idx !in pendingClients {
          return NoFault;
        }
        var pending := pendingClients[idx];
        pendingClients := pendingClients - {idx};
        if id !in clientIdToIdx || clientIdToIdx[id] != idx {
          currentClients := if currentClients > 0 then currentClients - 1 else 0;
          return SlotOccupied;
        }
        clients := clients[idx := id];
        if pending.buffered.None? {
          return ResponseMissing;
        }
        AddrRoundTrip(idx);
        var ok := Send(ToAddr(idx), pending.buffered.value, gone);
        return NoFault;
    }

    /** The next connection request or, without one, the next message of a client. */
    method TryRecv(capacity: nat) returns (r: Option<(SocketAddr, Bytes)>)
      requires clientIterator <= U64 && forall k :: 0 <= k < |connectionRequests| ==> connectionRequests[k].0 < U64
      modifies `pendingClients, `currentClients, `connectionRequests, `recvIndex, `inboxes, `lostClients
      ensures View() == T.TryRecv(old(View()), capacity).0
      ensures match T.TryRecv(old(View()), capacity).1
              case None => r == None
              case Some((idx, packet)) => r == Some((ToAddr(idx), packet)) && FromAddr(ToAddr(idx)) == idx
    {
      hide T.Scan;
      hide T.TakeRequest;
      hide ToAddr;
      hide FromAddr;
      r := NextRequest(capacity);
      if r == None {
        r := NextMessage(capacity);
      }
    }

    method NextRequest(capacity: nat) returns (r: Option<(SocketAddr, Bytes)>)
      requires forall k :: 0 <= k < |connectionRequests| ==> connectionRequests[k].0 < U64
      modifies `pendingClients, `currentClients, `connectionRequests
      ensures View() == TakeRequest(old(View()), capacity).0
      ensures match TakeRequest(old(View()), capacity).1
              case None => r == None
              case Some((idx, packet)) => r == Some((ToAddr(idx), packet)) && FromAddr(ToAddr(idx)) == idx
    {
      hide ToAddr;
      hide FromAddr;
      hide TakeRequest;
      ghost var before := View();
      while connectionRequests != []
        invariant TakeRequest(View(), capacity) == TakeRequest(before, capacity)
        invariant View() == before.(requests := connectionRequests)
        invariant forall k :: 0 <= k < |connectionRequests| ==> connectionRequests[k].0 < U64
        decreases |connectionRequests|
      {
        var (idx, packet) := connectionRequests[0];
        RequestFirst(View(), capacity);
        if |packet| > capacity {
          connectionRequests := connectionRequests[1..];
          continue;
        }
        connectionRequests := connectionRequests[1..];
        pendingClients := pendingClients[idx := PendingClient(None, None)];
        currentClients := currentClients + 1;
        AddrRoundTrip(idx);
        return Some((ToAddr(idx), packet));
      }
      RequestNone(View(), capacity);
      return None;
    }

    method NextMessage(capacity: nat) returns (r: Option<(SocketAddr, Bytes)>)
      requires clientIterator <= U64
      modifies `recvIndex, `inboxes, `lostClients
      ensures View() == Scan(old(View()), old(recvIndex), capacity).0
      ensures match Scan(old(View()), old(recvIndex), capacity).1
              case None => r == None
              case Some((idx, packet)) => r == Some((ToAddr(idx), packet)) && FromAddr(ToAddr(idx)) == idx
    {
      hide ToAddr;
      hide FromAddr;
      ghost var before, start := View(), recvIndex;
      var i := recvIndex;
      while i < clientIterator
        invariant Scan(View(), i, capacity) == Scan(before, start, capacity)
        decreases clientIterator - i
      {
        if i in clients {
          var inbox := if i in inboxes then inboxes[i] else [];
          if inbox != [] {
            var packet := inbox[0];
            inboxes := inboxes[i := inbox[1..]];
            if |packet| > capacity {
              lostClients := lostClients + {i};
            } else {
              AddrRoundTrip(i);
              return Some((ToAddr(i), packet));
            }
          } else {
            recvIndex := i + 1;
          }
        }
        i := i + 1;
      }
      return None;
    }

    /** Clients that are lost, or whose session has finished, are removed. */
    method Postupdate(finished: set<nat>)
      requires Counted(View()) && IndexOk(View())
      modifies `pendingClients, `clients, `clientIdToIdx, `lostClients, `currentClients
      ensures View() == Cleared(old(View()), Gone(old(View()), finished))
    {
      hide Clearing;
      hide Cleared;
      hide Counted;
      hide IndexOk;
      ghost var s := View();
      MarkFinished(finished);
      ghost var gone := lostClients;
      ClearingStart(s, gone);
      while lostClients != {}
        invariant Clearing(s, gone, View())
        decreases lostClients
      {
        var idx :| idx in lostClients;
        ClearOne(s, gone, idx);
      }
      ClearingEnd(s, gone, View());
    }

    method ClearOne(ghost s: Sockets, ghost gone: set<nat>, idx: nat)
      requires Counted(s) && IndexOk(s) && idx in lostClients && Clearing(s, gone, View())
      modifies `pendingClients, `clients, `clientIdToIdx, `lostClients, `currentClients
      ensures lostClients == old(lostClients) - {idx} && Clearing(s, gone, View())
    {
      hide Remove;
      hide Clearing;
      hide Counted;
      hide IndexOk;
      ClearingNext(s, gone, View(), idx);
      lostClients := lostClients - {idx};
      RemoveClient(idx);
    }

    method MarkFinished(finished: set<nat>)
      modifies `lostClients
      ensures View() == old(View()).(lost := Gone(old(View()), finished))
    {
      ghost var before := lostClients;
      var rest := clients.Keys;
      while rest != {}
        invariant rest <= clients.Keys
        invariant lostClients == before + (finished * (clients.Keys - rest))
        decreases rest
      {
        var idx :| idx in rest;
        if idx in finished {
          lostClients := lostClients + {idx};
        }
        rest := rest - {idx};
      }
    }

    /** Removes one client; the count goes down only when it was there. */
    method RemoveClient(idx: nat)
      requires Counted(View())
      modifies `pendingClients, `clients, `clientIdToIdx, `currentClients
      ensures View() == Remove(old(View()), idx)
    {
      hide Counted;
      hide Freed;
      hide Size;
      hide Released;
      RemoveCounted(View(), idx);
      FreedAs(View(), idx);
      if idx in clients {
        var id := clients[idx];
        clients := clients - {idx};
        CountDown(id, idx);
      } else if idx in pendingClients {
        var id := if pendingClients[idx].clientId.Some? then pendingClients[idx].clientId.value else NO_ID;
        pendingClients := pendingClients - {idx};
        CountDown(id, idx);
      }
    }

    /** The count, which then agrees with the maps, and the index entry of a removed client. */
    method CountDown(id: nat, idx: nat)
      requires currentClients == Size(clients, pendingClients) + 1
      modifies `clientIdToIdx, `currentClients
      ensures View() ==
                old(View()).(current := Size(clients, pendingClients), idToIdx := Released(old(clientIdToIdx), id, idx))
    {
      currentClients := currentClients - 1;
      if id in clientIdToIdx && clientIdToIdx[id] == idx {
        clientIdToIdx := clientIdToIdx - {id};
      }
    }
  }

  /** The index without the entry of `id`, if that points to `idx`. */
  function Released(idToIdx: map<nat, nat>, id: nat, idx: nat): map<nat, nat> {
    if id in idToIdx && idToIdx[id] == idx then idToIdx - {id} else idToIdx
  }

  lemma FreedAs(s: Sockets, idx: nat)
    ensures Freed(s, idx) == Released(s.idToIdx, IdOf(s, idx), idx)
  {
  }

  lemma OneLess<V>(m: map<nat, V>, k: nat)
    ensures |m - {k}| == |m| - if k in m then 1 else 0
    ensures k !in m ==> m - {k} == m
  {
    assert (m - {k}).Keys == m.Keys - {k};
    assert |m.Keys| == |m| && |(m - {k}).Keys| == |m - {k}|;
  }

  lemma RemoveCounted(s: Sockets, idx: nat)
    requires Counted(s)
    ensures idx in s.clients || idx in s.pending ==> s.current > 0
    ensures idx in s.clients ==> s.current - 1 == Size(s.clients - {idx}, s.pending)
    ensures idx in s.pending ==> idx !in s.clients && s.current - 1 == Size(s.clients, s.pending - {idx})
  {
    OneLess(s.clients, idx);
    OneLess(s.pending, idx);
  }

  /** Where clearing stands once the clients in `done` have been removed. */
  function Partly(s: Sockets, done: set<nat>, lost: set<nat>): Sockets {
    Cleared(s, done).(lost := lost)
  }

  /** `v` is where clearing stands when the clients marked lost in `v` are still to be removed. */
  ghost predicate Clearing(s: Sockets, gone: set<nat>, v: Sockets) {
    v.lost <= gone && v == Partly(s, gone - v.lost, v.lost)
  }

  lemma ClearingStart(s: Sockets, gone: set<nat>)
    requires Counted(s)
    ensures Clearing(s, gone, s.(lost := gone))
  {
    hide Partly;
    NothingCleared(s, gone);
    assert gone - gone == {};
  }

  lemma ClearingNext(s: Sockets, gone: set<nat>, v: Sockets, idx: nat)
    requires Counted(s) && IndexOk(s) && Clearing(s, gone, v) && idx in v.lost
    ensures var v1 := v.(lost := v.lost - {idx});
            Counted(v1) && Clearing(s, gone, Remove(v1, idx)) && Remove(v1, idx).lost == v1.lost
  {
    hide Counted;
    hide IndexOk;
    hide Partly;
    hide Freed;
    var lost := v.lost - {idx};
    OtherLost(s, gone - v.lost, v.lost, lost);
    RemoveOne(s, gone - v.lost, lost, idx);
    assert gone - v.lost + {idx} == gone - lost;
  }

  lemma ClearingEnd(s: Sockets, gone: set<nat>, v: Sockets)
    requires Clearing(s, gone, v) && v.lost == {}
    ensures v == Cleared(s, gone)
  {
    assert gone - {} == gone;
    AllCleared(s, gone);
  }

  lemma AllCleared(s: Sockets, gone: set<nat>)
    ensures Partly(s, gone, {}) == Cleared(s, gone)
  {
  }

  lemma OtherLost(s: Sockets, done: set<nat>, lost: set<nat>, lost': set<nat>)
    ensures Partly(s, done, lost).(lost := lost') == Partly(s, done, lost')
  {
  }

  lemma NothingCleared(s: Sockets, lost: set<nat>)
    requires Counted(s)
    ensures Partly(s, {}, lost) == s.(lost := lost)
  {
    assert Without(s.pending, {}) == s.pending && Without(s.clients, {}) == s.clients;
    assert Remaining(s.idToIdx, {}) == s.idToIdx;
  }

  lemma OneMore<V>(m: map<nat, V>, done: set<nat>, idx: nat)
    ensures Without(m, done) - {idx} == Without(m, done + {idx})
    ensures idx in Without(m, done) <==> idx in m && idx !in done
    ensures idx in Without(m, done) ==> Without(m, done)[idx] == m[idx]
    ensures idx !in m ==> Without(m, done + {idx}) == Without(m, done)
  {
  }

  /** The one id that may point to a connection is the one it gives up. */
  lemma OnlyId(s: Sockets, idx: nat, id: nat)
    requires Counted(s) && IndexOk(s) && Points(s, id, idx)
    ensures id == IdOf(s, idx) && (idx in s.clients || idx in s.pending)
  {
  }

  lemma SameId(s: Sockets, done: set<nat>, lost: set<nat>, idx: nat)
    requires idx !in done
    ensures IdOf(Partly(s, done, lost), idx) == IdOf(s, idx)
  {
    hide Size;
    hide Remaining;
    OneMore(s.clients, done, idx);
    OneMore(s.pending, done, idx);
  }

  lemma PartlyParts(s: Sockets, done: set<nat>, lost: set<nat>)
    ensures var p := Partly(s, done, lost);
            && p.clients == Without(s.clients, done) && p.pending == Without(s.pending, done)
            && p.current == Size(p.clients, p.pending) && p.idToIdx == Remaining(s.idToIdx, done)
  {
    hide Size;
    hide Remaining;
  }

  lemma StillPoints(s: Sockets, done: set<nat>, lost: set<nat>, idx: nat, id: nat)
    requires idx !in done
    ensures Points(Partly(s, done, lost), id, idx) <==> Points(s, id, idx)
  {
    hide Partly;
    PartlyParts(s, done, lost);
  }

  lemma FreedOne(s: Sockets, done: set<nat>, lost: set<nat>, idx: nat)
    requires Counted(s) && IndexOk(s) && idx !in done
    ensures Freed(Partly(s, done, lost), idx) == Remaining(s.idToIdx, done + {idx})
    ensures idx !in s.clients && idx !in s.pending ==> Remaining(s.idToIdx, done + {idx}) == Remaining(s.idToIdx, done)
  {
    hide Counted;
    hide IndexOk;
    hide IdOf;
    hide Partly;
    PartlyParts(s, done, lost);
    SameId(s, done, lost, idx);
    StillPoints(s, done, lost, idx, IdOf(s, idx));
    forall k: nat | Points(s, k, idx)
      ensures k == IdOf(s, idx) && (idx in s.clients || idx in s.pending)
    {
      OnlyId(s, idx, k);
    }
    RemainingOne(s, done, idx, IdOf(s, idx));
  }

  lemma RemainingOne(s: Sockets, done: set<nat>, idx: nat, id: nat)
    requires idx !in done && forall k: nat :: Points(s, k, idx) ==> k == id
    ensures var rest := Remaining(s.idToIdx, done);
            Remaining(s.idToIdx, done + {idx}) == if Points(s, id, idx) then rest - {id} else rest
  {
    assert forall k: nat :: k in s.idToIdx && s.idToIdx[k] == idx ==> Points(s, k, idx);
  }

  lemma RemoveAbsent(s: Sockets, done: set<nat>, lost: set<nat>, idx: nat)
    requires Counted(s) && IndexOk(s) && idx !in done && idx !in s.clients && idx !in s.pending
    ensures Remove(Partly(s, done, lost), idx) == Partly(s, done + {idx}, lost)
  {
    hide IndexOk;
    hide Freed;
    hide Remaining;
    hide Counted;
    hide Without;
    hide Size;
    FreedOne(s, done, lost, idx);
    OneMore(s.clients, done, idx);
    OneMore(s.pending, done, idx);
  }

  lemma RemoveAccepted(s: Sockets, done: set<nat>, lost: set<nat>, idx: nat)
    requires Counted(s) && IndexOk(s) && idx !in done && idx in s.clients
    ensures Remove(Partly(s, done, lost), idx) == Partly(s, done + {idx}, lost)
  {
    hide IndexOk;
    hide Freed;
    hide Remaining;
    hide Counted;
    hide Without;
    hide Size;
    NotBoth(s, idx);
    PartlyCounted(s, done, lost);
    FreedOne(s, done, lost, idx);
    OneMore(s.clients, done, idx);
    OneMore(s.pending, done, idx);
    RemoveCounted(Partly(s, done, lost), idx);
  }

  lemma RemovePending(s: Sockets, done: set<nat>, lost: set<nat>, idx: nat)
    requires Counted(s) && IndexOk(s) && idx !in done && idx in s.pending
    ensures Remove(Partly(s, done, lost), idx) == Partly(s, done + {idx}, lost)
  {
    hide IndexOk;
    hide Freed;
    hide Remaining;
    hide Counted;
    hide Without;
    hide Size;
    NotBoth(s, idx);
    PartlyCounted(s, done, lost);
    FreedOne(s, done, lost, idx);
    OneMore(s.clients, done, idx);
    OneMore(s.pending, done, idx);
    RemoveCounted(Partly(s, done, lost), idx);
  }

  lemma RemoveOne(s: Sockets, done: set<nat>, lost: set<nat>, idx: nat)
    requires Counted(s) && IndexOk(s) && idx !in done
    ensures Counted(Partly(s, done, lost))
    ensures Remove(Partly(s, done, lost), idx) == Partly(s, done + {idx}, lost)
  {
    hide IndexOk;
    hide Counted;
    hide Partly;
    hide Remove;
    PartlyCounted(s, done, lost);
    if idx in s.clients {
      RemoveAccepted(s, done, lost, idx);
    } else if idx in s.pending {
      RemovePending(s, done, lost, idx);
    } else {
      RemoveAbsent(s, done, lost, idx);
    }
  }

  lemma NotBoth(s: Sockets, idx: nat)
    requires Counted(s)
    ensures idx !in s.clients || idx !in s.pending
  {
  }

  lemma PartlyCounted(s: Sockets, done: set<nat>, lost: set<nat>)
    requires Counted(s)
    ensures Counted(Partly(s, done, lost))
  {
    hide Remaining;
  }
}
