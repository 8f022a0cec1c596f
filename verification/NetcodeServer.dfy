/** The connection table of a netcode server (renetcode2/src/server.rs) as a value. */
module NetcodeTable {
  import opened Base

  const MAX_CLIENTS: nat := 1024
  const MAX_PENDING_CLIENTS: nat := 4 * MAX_CLIENTS
  const MAX_PAYLOAD_BYTES: nat := 1300
  const NANOS: nat := 1_000_000_000
  const SEND_RATE: nat := 250_000_000

  /** A remote end: the socket it was heard on and its address there. */
  datatype Peer = Peer(socket: nat, addr: nat)

  datatype ConnectionState = Disconnected | PendingResponse | Connected

  datatype Connection = Connection(
    confirmed: bool,
    clientId: nat,
    state: ConnectionState,
    peer: Peer,
    userData: Bytes,
    lastReceived: nat,
    lastSend: nat,
    timeoutSeconds: int,
    sequence: nat,
    expireTimestamp: nat)

  /** A connect token seen before, known by its signature. */
  datatype Entry = Entry(time: nat, peer: Peer, mac: nat)

  datatype Table = Table(
    slots: seq<Option<Connection>>,
    pending: map<Peer, Connection>,
    entries: seq<Option<Entry>>,
    maxClients: nat,
    time: nat,
    challengeSequence: nat,
    globalSequence: nat)

  /** What does not change over the life of a server. */
  datatype Config = Config(protocolId: nat, numSockets: nat, secure: bool)

  /** A connect token once decrypted; `listed` tells whether it names an address of the server. */
  datatype Token = Token(clientId: nat, socketId: nat, listed: bool, timeoutSeconds: int, userData: Bytes)

  datatype Request = Request(versionOk: bool, protocolId: nat, expireTimestamp: nat, token: Option<Token>, mac: nat)

  datatype ChallengeToken = ChallengeToken(clientId: nat, userData: Bytes)

  /** A packet as decoded; a challenge token that cannot be decrypted is `None`. */
  datatype Arrived =
    | ConnectionRequest(request: Request)
    | Response(token: Option<ChallengeToken>)
    | Payload
    | KeepAlive
    | Disconnect
    | OtherPacket

  /** The outcome of an operation; `payload` tells whether there is a packet to send. */
  datatype Outcome =
    | Nothing
    | Failed
    | Denied(peer: Peer, payload: bool)
    | Accepted(clientId: nat, peer: Peer)
    | ToSend(peer: Peer)
    | PayloadFrom(clientId: nat)
    | ClientConnected(clientId: nat, peer: Peer, userData: Bytes)
    | ClientDisconnected(clientId: nat, peer: Peer, payload: bool)

  // ----- Lookups

  predicate HasPeer(slot: Option<Connection>, peer: Peer) {
    slot.Some? && slot.value.peer == peer
  }

  predicate HasId(slot: Option<Connection>, id: nat) {
    slot.Some? && slot.value.clientId == id
  }

  /** The first slot with the peer. */
  function FindPeer(slots: seq<Option<Connection>>, peer: Peer): (r: Option<nat>)
    ensures r.Some? ==> r.value < |slots| && HasPeer(slots[r.value], peer)
    ensures r.Some? ==> forall j :: 0 <= j < r.value ==> !HasPeer(slots[j], peer)
    ensures r.None? ==> forall j :: 0 <= j < |slots| ==> !HasPeer(slots[j], peer)
  {
    if slots == [] then None
    else if HasPeer(slots[0], peer) then Some(0)
    else
      match FindPeer(slots[1..], peer)
      case None => None
      case Some(i) => Some(i + 1)
  }

  function FindId(slots: seq<Option<Connection>>, id: nat): (r: Option<nat>)
    ensures r.Some? ==> r.value < |slots| && HasId(slots[r.value], id)
    ensures r.Some? ==> forall j :: 0 <= j < r.value ==> !HasId(slots[j], id)
    ensures r.None? ==> forall j :: 0 <= j < |slots| ==> !HasId(slots[j], id)
  {
    if slots == [] then None
    else if HasId(slots[0], id) then Some(0)
    else
      match FindId(slots[1..], id)
      case None => None
      case Some(i) => Some(i + 1)
  }

  function FreeSlot(slots: seq<Option<Connection>>): (r: Option<nat>)
    ensures r.Some? ==> r.value < |slots| && slots[r.value].None? && forall j :: 0 <= j < r.value ==> slots[j].Some?
    ensures r.None? ==> forall j :: 0 <= j < |slots| ==> slots[j].Some?
  {
    if slots == [] then None
    else if slots[0].None? then Some(0)
    else
      match FreeSlot(slots[1..])
      case None => None
      case Some(i) => Some(i + 1)
  }

  function CountTaken(slots: seq<Option<Connection>>): nat {
    if slots == [] then 0
    else CountTaken(slots[..|slots| - 1]) + if slots[|slots| - 1].Some? then 1 else 0
  }

  // ----- Connect tokens

  predicate HasMac(entry: Option<Entry>, mac: nat) {
    entry.Some? && entry.value.mac == mac
  }

  /** The last entry with the signature. */
  function FindMac(entries: seq<Option<Entry>>, mac: nat): (r: Option<nat>)
    ensures r.Some? ==> r.value < |entries| && HasMac(entries[r.value], mac)
    ensures r.Some? ==> forall j :: r.value < j < |entries| ==> !HasMac(entries[j], mac)
    ensures r.None? ==> forall j :: 0 <= j < |entries| ==> !HasMac(entries[j], mac)
  {
    if entries == [] then None
    else if HasMac(entries[|entries| - 1], mac) then Some(|entries| - 1)
    else FindMac(entries[..|entries| - 1], mac)
  }

  /** Where a new entry goes: the first free place or, without one, the first of the oldest entries. */
  predicate IsVictim(entries: seq<Option<Entry>>, v: nat) {
    && v < |entries|
    && if entries[v].None? then forall j :: 0 <= j < v ==> entries[j].Some?
       else
         && (forall j :: 0 <= j < |entries| ==> entries[j].Some? && entries[v].value.time <= entries[j].value.time)
         && (forall j :: 0 <= j < v ==> entries[v].value.time < entries[j].value.time)
  }

  lemma VictimUnique(entries: seq<Option<Entry>>, v: nat, v': nat)
    requires IsVictim(entries, v) && IsVictim(entries, v')
    ensures v == v'
  {
  }

  lemma {:induction false} VictimExists(entries: seq<Option<Entry>>)
    requires entries != []
    ensures exists v: nat :: IsVictim(entries, v)
  {
    if |entries| == 1 {
      assert IsVictim(entries, 0);
    } else {
      var front, last := entries[..|entries| - 1], |entries| - 1;
      VictimExists(front);
      var v: nat :| IsVictim(front, v);
      assert front[v] == entries[v] && forall j :: 0 <= j < last ==> front[j] == entries[j];
      if entries[v].Some? && (entries[last].None? || entries[last].value.time < entries[v].value.time) {
        assert IsVictim(entries, last);
      } else {
        assert IsVictim(entries, v);
      }
    }
  }

  ghost function Victim(entries: seq<Option<Entry>>): (v: nat)
    requires entries != []
    ensures IsVictim(entries, v)
  {
    VictimExists(entries);
    var v: nat :| IsVictim(entries, v);
    v
  }

  /** A token may be used from the address it was first used from, and from no other. */
  ghost function FindOrAdd(entries: seq<Option<Entry>>, entry: Entry): (seq<Option<Entry>>, bool)
    requires entries != []
  {
    match FindMac(entries, entry.mac)
    case Some(i) => (entries, entries[i].value.peer == entry.peer)
    case None => (entries[Victim(entries) := Some(entry)], true)
  }

  // ----- Operations

  /** The connection kept for a peer whose request is let through. */
  function Pending(t: Table, peer: Peer, request: Request, token: Token): Connection {
    var c :=
      if peer in t.pending then t.pending[peer]
      else Connection(false, token.clientId, PendingResponse, peer, token.userData, t.time, t.time,
                      token.timeoutSeconds, 0, request.expireTimestamp);
    c.(lastReceived := t.time, lastSend := t.time)
  }

  /** The checks on a request before the table is looked at. */
  predicate Admissible(t: Table, cfg: Config, peer: Peer, request: Request) {
    && request.versionOk && request.protocolId == cfg.protocolId && t.time / NANOS < request.expireTimestamp
    && request.token.Some? && peer.socket < cfg.numSockets && peer.socket == request.token.value.socketId
    && (cfg.secure ==> request.token.value.listed)
  }

  /** `handle_connection_request`; `encodes` tells whether the packet to send can be built. */
  ghost function HandleRequest(t: Table, cfg: Config, peer: Peer, request: Request, encodes: bool): (Table, Outcome)
    requires t.entries != []
  {
    if !Admissible(t, cfg, peer, request) then (t, Failed)
    else
      var token := request.token.value;
      if FindPeer(t.slots, peer).Some? then
        (t, if t.slots[FindPeer(t.slots, peer).value].value.clientId == token.clientId then Nothing
            else Denied(peer, false))
      else if FindId(t.slots, token.clientId).Some? then (t, Denied(peer, false))
      else if peer !in t.pending && |t.pending| >= MAX_PENDING_CLIENTS then (t, Denied(peer, false))
      else
        var (entries, ok) := FindOrAdd(t.entries, Entry(t.time, peer, request.mac));
        if !ok then (t, Denied(peer, false))
        else Challenged(t.(entries := entries), peer, request, encodes)
  }

  /** A request that is let through is answered, with a challenge or for want of room with a refusal. */
  ghost function Challenged(t: Table, peer: Peer, request: Request, encodes: bool): (Table, Outcome)
    requires request.token.Some?
  {
    if CountTaken(t.slots) >= t.maxClients then
      var t1 := t.(pending := t.pending - {peer});
      if !encodes then (t1, Failed) else (t1.(globalSequence := t.globalSequence + 1), Denied(peer, true))
    else
      var t1 := t.(challengeSequence := t.challengeSequence + 1);
      if !encodes then (t1, Failed)
      else
        var token := request.token.value;
        (t1.(globalSequence := t.globalSequence + 1, pending := t.pending[peer := Pending(t, peer, request, token)]),
         Accepted(token.clientId, peer))
  }

  /** A packet from a connected client. */
  function FromClient(t: Table, slot: nat, arrived: Arrived): (Table, Outcome)
    requires slot < |t.slots| && t.slots[slot].Some?
  {
    var c := t.slots[slot].value.(lastReceived := t.time);
    var heard := t.(slots := t.slots[slot := Some(c)]);
    if c.state != Connected then (heard, Nothing)
    else
      match arrived
      case Disconnect => (t.(slots := t.slots[slot := None]), ClientDisconnected(c.clientId, c.peer, false))
      case Payload => (t.(slots := t.slots[slot := Some(c.(confirmed := true))]), PayloadFrom(c.clientId))
      case KeepAlive => (t.(slots := t.slots[slot := Some(c.(confirmed := true))]), Nothing)
      case _ => (heard, Nothing)
  }

  /** The answer to a challenge: the client takes the first free slot, under its pending id. */
  function Answer(t: Table, peer: Peer, challenge: ChallengeToken, encodes: bool): (Table, Outcome)
    requires peer in t.pending
  {
    var c := t.pending[peer];
    var t1 := t.(pending := t.pending - {peer});
    if FindId(t.slots, challenge.clientId).Some? then (t1, Nothing)
    else
      match FreeSlot(t.slots)
      case None => if encodes then (t1.(globalSequence := t.globalSequence + 1), Denied(peer, true)) else (t1, Failed)
      case Some(i) =>
        if !encodes then (t1, Failed)
        else
          var c1 := c.(state := Connected, userData := challenge.userData, lastSend := t.time,
                       sequence := c.sequence + 1);
          (t1.(slots := t.slots[i := Some(c1)]), ClientConnected(c.clientId, peer, challenge.userData))
  }

  ghost function FromPending(t: Table, cfg: Config, peer: Peer, arrived: Arrived, encodes: bool): (Table, Outcome)
    requires peer in t.pending && t.entries != []
  {
    var heard := t.(pending := t.pending[peer := t.pending[peer].(lastReceived := t.time)]);
    match arrived
    case ConnectionRequest(request) => HandleRequest(heard, cfg, peer, request, encodes)
    case Response(None) => (heard, Failed)
    case Response(Some(challenge)) => Answer(heard, peer, challenge, encodes)
    case _ => (heard, Nothing)
  }

  /** Without a key only connection requests can be decoded. */
  predicate Decodable(t: Table, peer: Peer, arrived: Option<Arrived>) {
    FindPeer(t.slots, peer).None? && peer !in t.pending && arrived.Some? ==> arrived.value.ConnectionRequest?
  }

  /** `process_packet`; `None` stands for a packet that cannot be decoded. */
  ghost function ProcessPacket(t: Table, cfg: Config, peer: Peer, arrived: Option<Arrived>, encodes: bool)
    : (Table, Outcome)
    requires t.entries != [] && Decodable(t, peer, arrived)
  {
    if arrived.None? then (t, Failed)
    else if FindPeer(t.slots, peer).Some? then FromClient(t, FindPeer(t.slots, peer).value, arrived.value)
    else if peer in t.pending then FromPending(t, cfg, peer, arrived.value, encodes)
    else HandleRequest(t, cfg, peer, arrived.value.request, encodes)
  }

  predicate Expired(c: Connection, time: nat) {
    time / NANOS > c.expireTimestamp
  }

  function Unexpired(pending: map<Peer, Connection>, time: nat): map<Peer, Connection> {
    map p | p in pending && !Expired(pending[p], time) :: pending[p]
  }

  function Update(t: Table, duration: nat): Table {
    t.(time := t.time + duration, pending := Unexpired(t.pending, t.time + duration))
  }

  predicate TimedOut(c: Connection, time: nat) {
    c.timeoutSeconds > 0 && c.lastReceived + c.timeoutSeconds * NANOS < time
  }

  function UpdateClient(t: Table, id: nat, encodes: bool): (Table, Outcome) {
    match FindId(t.slots, id)
    case None => (t, Nothing)
    case Some(i) =>
      var c := t.slots[i].value;
      if TimedOut(c, t.time) || c.state == Disconnected then
        (t.(slots := t.slots[i := None]), ClientDisconnected(id, c.peer, encodes))
      else if c.lastSend + SEND_RATE <= t.time && encodes then
        (t.(slots := t.slots[i := Some(c.(sequence := c.sequence + 1, lastSend := t.time))]), ToSend(c.peer))
      else (t, Nothing)
  }

  function DisconnectClient(t: Table, id: nat, encodes: bool): (Table, Outcome) {
    match FindId(t.slots, id)
    case None => (t, Nothing)
    case Some(i) => (t.(slots := t.slots[i := None]), ClientDisconnected(id, t.slots[i].value.peer, encodes))
  }

  function SetMaxClients(t: Table, n: nat): Table {
    t.(maxClients := if n < MAX_CLIENTS then n else MAX_CLIENTS)
  }

  function GeneratePayload(t: Table, id: nat, size: nat, encodes: bool): (Table, Outcome) {
    if size > MAX_PAYLOAD_BYTES || FindId(t.slots, id).None? || !encodes then (t, Failed)
    else
      var i := FindId(t.slots, id).value;
      var c := t.slots[i].value;
      (t.(slots := t.slots[i := Some(c.(sequence := c.sequence + 1, lastSend := t.time))]), ToSend(c.peer))
  }

  // ----- What every operation keeps

  ghost predicate Inv(t: Table) {
    && PendingOk(t.pending) && SlotsOk(t.slots) && Apart(t.slots, t.pending)
    && |t.pending| <= MAX_PENDING_CLIENTS
    && t.entries != [] && OneEntryEach(t.entries)
  }

  /** Pending connections are kept under their own peer. */
  ghost predicate PendingOk(pending: map<Peer, Connection>) {
    forall p :: p in pending ==> pending[p].peer == p && pending[p].state == PendingResponse
  }

  /** Slots hold connected clients, no two of the same peer. */
  ghost predicate SlotsOk(slots: seq<Option<Connection>>) {
    && (forall i :: 0 <= i < |slots| && slots[i].Some? ==> slots[i].value.state == Connected)
    && (forall i, j :: 0 <= i < j < |slots| && slots[i].Some? && slots[j].Some? ==>
         slots[i].value.peer != slots[j].value.peer)
  }

  /** No peer is both connected and pending. */
  ghost predicate Apart(slots: seq<Option<Connection>>, pending: map<Peer, Connection>) {
    forall i :: 0 <= i < |slots| && slots[i].Some? ==> slots[i].value.peer !in pending
  }

  /** A token has one entry at most, so it stays bound to one address. */
  ghost predicate OneEntryEach(entries: seq<Option<Entry>>) {
    forall i, j :: 0 <= i < j < |entries| && entries[i].Some? && entries[j].Some? ==>
        entries[i].value.mac != entries[j].value.mac
  }

  /** No two slots share a client id. */
  ghost predicate UniqueIds(slots: seq<Option<Connection>>) {
    forall i, j :: 0 <= i < j < |slots| && slots[i].Some? && slots[j].Some? ==>
        slots[i].value.clientId != slots[j].value.clientId
  }

  lemma FindOrAddKeeps(entries: seq<Option<Entry>>, entry: Entry)
    requires entries != [] && OneEntryEach(entries)
    ensures var (entries', ok) := FindOrAdd(entries, entry);
            && |entries'| == |entries| && OneEntryEach(entries')
            && (ok <==> forall i :: 0 <= i < |entries| && HasMac(entries[i], entry.mac) ==>
                 entries[i].value.peer == entry.peer)
            && (ok ==> exists i :: 0 <= i < |entries'| && HasMac(entries'[i], entry.mac)
                                 && entries'[i].value.peer == entry.peer)
            && (!ok ==> entries' == entries)
  {
    hide IsVictim;
    match FindMac(entries, entry.mac)
    case Some(i) =>
      assert HasMac(entries[i], entry.mac);
    case None =>
      var v := Victim(entries);
      VictimIndex(entries, v);
      assert entries[v := Some(entry)][v] == Some(entry);
  }

  lemma VictimIndex(entries: seq<Option<Entry>>, v: nat)
    requires IsVictim(entries, v)
    ensures v < |entries|
  {
  }

  lemma {:induction false} PendingSize(pending: map<Peer, Connection>, peer: Peer, c: Connection)
    ensures |pending[peer := c]| == |pending| + if peer in pending then 0 else 1
    ensures |pending - {peer}| <= |pending|
  {
    assert pending[peer := c].Keys == pending.Keys + {peer};
    assert (pending - {peer}).Keys == pending.Keys - {peer};
    assert |pending[peer := c].Keys| == |pending[peer := c]| && |pending.Keys| == |pending|;
    assert |(pending - {peer}).Keys| == |pending - {peer}|;
  }

  lemma EntriesInv(t: Table, entry: Entry)
    requires Inv(t)
    ensures Inv(t.(entries := FindOrAdd(t.entries, entry).0))
  {
    hide OneEntryEach;
    hide FindOrAdd;
    FindOrAddKeeps(t.entries, entry);
  }

  lemma PendingStored(t: Table, peer: Peer, c: Connection)
    requires Inv(t) && c.peer == peer && c.state == PendingResponse && FindPeer(t.slots, peer).None?
    requires peer in t.pending || |t.pending| < MAX_PENDING_CLIENTS
    ensures Inv(t.(pending := t.pending[peer := c]))
  {
    hide OneEntryEach;
    hide SlotsOk;
    hide FindPeer;
    PendingSize(t.pending, peer, c);
  }

  lemma PendingDropped(t: Table, peer: Peer)
    requires Inv(t)
    ensures Inv(t.(pending := t.pending - {peer}))
  {
    hide OneEntryEach;
    hide SlotsOk;
    PendingSize(t.pending, peer, Connection(false, 0, Disconnected, peer, [], 0, 0, 0, 0, 0));
  }

  lemma PendingKept(t: Table, peer: Peer, request: Request, token: Token)
    requires Inv(t)
    ensures Pending(t, peer, request, token).peer == peer && Pending(t, peer, request, token).state == PendingResponse
  {
    hide OneEntryEach;
    hide SlotsOk;
  }

  lemma Renumbered(t: Table, challenge: nat, global: nat)
    requires Inv(t)
    ensures Inv(t.(challengeSequence := challenge, globalSequence := global))
  {
    hide OneEntryEach;
    hide SlotsOk;
  }

  lemma ChallengedInv(t: Table, peer: Peer, request: Request, encodes: bool)
    requires Inv(t) && FindPeer(t.slots, peer).None? && request.token.Some?
    requires peer in t.pending || |t.pending| < MAX_PENDING_CLIENTS
    ensures Inv(Challenged(t, peer, request, encodes).0)
  {
    hide Inv;
    hide FindPeer;
    hide Pending;
    hide CountTaken;
    var c := Pending(t, peer, request, request.token.value);
    PendingKept(t, peer, request, request.token.value);
    PendingDropped(t, peer);
    Renumbered(t.(pending := t.pending - {peer}), t.challengeSequence, t.globalSequence + 1);
    Renumbered(t, t.challengeSequence + 1, t.globalSequence);
    PendingStored(t, peer, c);
    Renumbered(t.(pending := t.pending[peer := c]), t.challengeSequence + 1, t.globalSequence + 1);
  }

  lemma HandleRequestInv(t: Table, cfg: Config, peer: Peer, request: Request, encodes: bool)
    requires Inv(t) && FindPeer(t.slots, peer).None?
    ensures t.entries != [] && Inv(HandleRequest(t, cfg, peer, request, encodes).0)
    ensures HandleRequest(t, cfg, peer, request, encodes).0.slots == t.slots
  {
    hide Inv;
    hide FindOrAdd;
    hide FindPeer;
    hide FindId;
    hide CountTaken;
    hide Pending;
    InvEntries(t);
    if Admissible(t, cfg, peer, request) && (peer in t.pending || |t.pending| < MAX_PENDING_CLIENTS) {
      var entry := Entry(t.time, peer, request.mac);
      EntriesInv(t, entry);
      ChallengedInv(t.(entries := FindOrAdd(t.entries, entry).0), peer, request, encodes);
    }
  }

  lemma FromClientInv(t: Table, slot: nat, arrived: Arrived)
    requires Inv(t) && slot < |t.slots| && t.slots[slot].Some?
    ensures Inv(FromClient(t, slot, arrived).0)
  {
    hide OneEntryEach;
  }

  lemma AnswerInv(t: Table, peer: Peer, challenge: ChallengeToken, encodes: bool)
    requires Inv(t) && peer in t.pending
    ensures Inv(Answer(t, peer, challenge, encodes).0)
  {
    hide OneEntryEach;
    PendingSize(t.pending, peer, t.pending[peer]);
  }

  lemma HeardInv(t: Table, peer: Peer)
    requires Inv(t) && peer in t.pending
    ensures Inv(t.(pending := t.pending[peer := t.pending[peer].(lastReceived := t.time)]))
    ensures FindPeer(t.slots, peer).None?
  {
    hide OneEntryEach;
    hide SlotsOk;
    PendingStored(t, peer, t.pending[peer].(lastReceived := t.time));
  }

  lemma ProcessPacketInv(t: Table, cfg: Config, peer: Peer, arrived: Option<Arrived>, encodes: bool)
    requires Inv(t) && Decodable(t, peer, arrived)
    ensures Inv(ProcessPacket(t, cfg, peer, arrived, encodes).0)
  {
    hide Inv;
    hide HandleRequest;
    hide FromClient;
    hide Answer;
    InvEntries(t);
    if arrived.Some? {
      if FindPeer(t.slots, peer).Some? {
        FromClientInv(t, FindPeer(t.slots, peer).value, arrived.value);
      } else if peer in t.pending {
        var heard := t.(pending := t.pending[peer := t.pending[peer].(lastReceived := t.time)]);
        HeardInv(t, peer);
        match arrived.value
        case ConnectionRequest(request) => HandleRequestInv(heard, cfg, peer, request, encodes);
        case Response(Some(challenge)) => AnswerInv(heard, peer, challenge, encodes);
        case _ =>
      } else {
        HandleRequestInv(t, cfg, peer, arrived.value.request, encodes);
      }
    }
  }

  lemma InvEntries(t: Table)
    requires Inv(t)
    ensures t.entries != []
  {
  }

  lemma SlotUpdated(t: Table, i: nat, slot: Option<Connection>)
    requires Inv(t) && i < |t.slots| && t.slots[i].Some?
    requires slot.Some? ==> slot.value.peer == t.slots[i].value.peer && slot.value.state == Connected
    ensures Inv(t.(slots := t.slots[i := slot]))
  {
    hide OneEntryEach;
    hide PendingOk;
  }

  lemma UpdateInv(t: Table, duration: nat)
    requires Inv(t)
    ensures Inv(Update(t, duration))
  {
    hide OneEntryEach;
    hide SlotsOk;
    FewerPending(t.pending, Unexpired(t.pending, t.time + duration));
  }

  lemma {:induction false} FewerPending(a: map<Peer, Connection>, b: map<Peer, Connection>)
    requires forall p :: p in b ==> p in a
    ensures |b| <= |a|
    decreases |b|
  {
    if b != map[] {
      var p :| p in b;
      FewerPending(a - {p}, b - {p});
      assert |(a - {p}).Keys| == |a.Keys - {p}| by { assert (a - {p}).Keys == a.Keys - {p}; }
      assert |(b - {p}).Keys| == |b.Keys - {p}| by { assert (b - {p}).Keys == b.Keys - {p}; }
    }
  }

  lemma ClientOpsInv(t: Table, id: nat, size: nat, encodes: bool)
    requires Inv(t)
    ensures Inv(UpdateClient(t, id, encodes).0) && Inv(DisconnectClient(t, id, encodes).0)
    ensures Inv(GeneratePayload(t, id, size, encodes).0)
  {
    hide Inv;
    hide FindId;
    if FindId(t.slots, id).Some? {
      var i := FindId(t.slots, id).value;
      var c := t.slots[i].value;
      SlotState(t, i);
      SlotUpdated(t, i, None);
      SlotUpdated(t, i, Some(c.(sequence := c.sequence + 1, lastSend := t.time)));
    }
  }

  lemma SlotState(t: Table, i: nat)
    requires Inv(t) && i < |t.slots| && t.slots[i].Some?
    ensures t.slots[i].value.state == Connected
  {
  }

  // ----- Runs

  datatype Event =
    | PacketArrives(peer: Peer, arrived: Option<Arrived>, encodes: bool)
    | TimePasses(duration: nat)
    | ClientUpdated(id: nat, encodes: bool)
    | ClientDropped(id: nat, encodes: bool)
    | MaxClientsSet(n: nat)
    | PayloadSent(id: nat, size: nat, encodes: bool)

  ghost predicate Possible(t: Table, event: Event) {
    t.entries != [] && (event.PacketArrives? ==> Decodable(t, event.peer, event.arrived))
  }

  ghost function Step(t: Table, cfg: Config, event: Event): (Table, Outcome)
    requires Possible(t, event)
  {
    match event
    case PacketArrives(peer, arrived, encodes) => ProcessPacket(t, cfg, peer, arrived, encodes)
    case TimePasses(duration) => (Update(t, duration), Nothing)
    case ClientUpdated(id, encodes) => UpdateClient(t, id, encodes)
    case ClientDropped(id, encodes) => DisconnectClient(t, id, encodes)
    case MaxClientsSet(n) => (SetMaxClients(t, n), Nothing)
    case PayloadSent(id, size, encodes) => GeneratePayload(t, id, size, encodes)
  }

  ghost predicate New(t: Table) {
    && (forall i :: 0 <= i < |t.slots| ==> t.slots[i].None?) && t.pending == map[]
    && |t.entries| == 2 * MAX_CLIENTS && (forall i :: 0 <= i < |t.entries| ==> t.entries[i].None?)
  }

  ghost predicate Run(cfg: Config, states: seq<Table>, events: seq<Event>) {
    && |states| == |events| + 1 && New(states[0])
    && forall k :: 0 <= k < |events| ==>
         Possible(states[k], events[k]) && states[k + 1] == Step(states[k], cfg, events[k]).0
  }

  lemma StepInv(t: Table, cfg: Config, event: Event)
    requires Inv(t) && Possible(t, event)
    ensures Inv(Step(t, cfg, event).0)
  {
    hide ProcessPacket;
    hide Update;
    hide UpdateClient;
    hide DisconnectClient;
    hide GeneratePayload;
    hide Decodable;
    hide OneEntryEach;
    hide SlotsOk;
    hide PendingOk;
    match event
    case PacketArrives(peer, arrived, encodes) => ProcessPacketInv(t, cfg, peer, arrived, encodes);
    case TimePasses(duration) => UpdateInv(t, duration);
    case ClientUpdated(id, encodes) => ClientOpsInv(t, id, 0, encodes);
    case ClientDropped(id, encodes) => ClientOpsInv(t, id, 0, encodes);
    case PayloadSent(id, size, encodes) => ClientOpsInv(t, id, size, encodes);
    case MaxClientsSet(_) =>
  }

  /** The table invariant holds in every state of every run. */
  lemma {:induction false} RunInv(cfg: Config, states: seq<Table>, events: seq<Event>, i: nat)
    requires Run(cfg, states, events) && i < |states|
    ensures Inv(states[i])
  {
    hide Inv;
    hide Step;
    if i == 0 {
      NewInv(states[0]);
    } else {
      RunInv(cfg, states, events, i - 1);
      StepInv(states[i - 1], cfg, events[i - 1]);
    }
  }

  lemma NewInv(t: Table)
    requires New(t)
    ensures Inv(t) && UniqueIds(t.slots)
  {
  }

  // ----- Requests

  /** `handle_connection_request` without its branch for a peer that is connected already. */
  ghost function HandleNewPeer(t: Table, cfg: Config, peer: Peer, request: Request, encodes: bool): (Table, Outcome)
    requires t.entries != []
  {
    if !Admissible(t, cfg, peer, request) then (t, Failed)
    else if FindId(t.slots, request.token.value.clientId).Some? then (t, Denied(peer, false))
    else if peer !in t.pending && |t.pending| >= MAX_PENDING_CLIENTS then (t, Denied(peer, false))
    else
      var (entries, ok) := FindOrAdd(t.entries, Entry(t.time, peer, request.mac));
      if !ok then (t, Denied(peer, false)) else Challenged(t.(entries := entries), peer, request, encodes)
  }

  /** Whether a packet is handed to `handle_connection_request`, and the table it then sees. */
  ghost predicate Handles(t: Table, peer: Peer, arrived: Option<Arrived>, seen: Table) {
    && arrived.Some? && arrived.value.ConnectionRequest? && FindPeer(t.slots, peer).None?
    && seen == if peer in t.pending then t.(pending := t.pending[peer := t.pending[peer].(lastReceived := t.time)])
         else t
  }

  /**
   * The handler is never called for a peer that is connected, so its branch for one is dead: it does
   * what it would do without. The request of a connected peer is ignored, any other is answered.
   */
  lemma RequestsAnswered(t: Table, cfg: Config, peer: Peer, arrived: Option<Arrived>, encodes: bool)
    requires t.entries != [] && Decodable(t, peer, arrived) && arrived.Some? && arrived.value.ConnectionRequest?
    ensures forall seen :: Handles(t, peer, arrived, seen) ==>
              && FindPeer(seen.slots, peer).None? && seen.entries != []
              && ProcessPacket(t, cfg, peer, arrived, encodes) ==
                   HandleNewPeer(seen, cfg, peer, arrived.value.request, encodes)
    ensures FindPeer(t.slots, peer).Some? <==> ProcessPacket(t, cfg, peer, arrived, encodes).1 == Nothing
  {
    hide CountTaken;
    hide FindOrAdd;
    hide FindPeer;
    hide FindId;
  }

  /**
   * The request speaks the server's protocol, in time, and has a token made for the socket it came
   * in on and, on a secure server, for one of the server's addresses.
   */
  predicate InOrder(t: Table, cfg: Config, peer: Peer, request: Request) {
    match request
    case Request(versionOk, protocolId, expireTimestamp, Some(token), _) =>
      && versionOk && protocolId == cfg.protocolId && t.time < expireTimestamp * 1_000_000_000
      && token.socketId == peer.socket < cfg.numSockets && (token.listed || !cfg.secure)
    case _ => false
  }

  /** A token that no other address has used, for a client id and an address that are not connected. */
  ghost predicate Welcome(t: Table, cfg: Config, peer: Peer, request: Request) {
    && InOrder(t, cfg, peer, request)
    && FindPeer(t.slots, peer).None? && FindId(t.slots, request.token.value.clientId).None?
    && (forall i :: 0 <= i < |t.entries| && HasMac(t.entries[i], request.mac) ==> t.entries[i].value.peer == peer)
  }

  /**
   * A request is accepted exactly when it is welcome and there is room among the pending and among
   * the connected. The token is then bound to the peer, which is pending.
   */
  lemma AcceptedExactly(t: Table, cfg: Config, peer: Peer, request: Request, encodes: bool)
    requires Inv(t)
    ensures t.entries != []
    ensures var (t', outcome) := HandleRequest(t, cfg, peer, request, encodes);
            && (outcome.Accepted? <==>
                  && Welcome(t, cfg, peer, request) && encodes && CountTaken(t.slots) < t.maxClients
                  && (peer in t.pending || |t.pending| < MAX_PENDING_CLIENTS))
            && (outcome.Accepted? ==>
                  && peer in t'.pending && t'.slots == t.slots
                  && (exists i :: 0 <= i < |t'.entries| && HasMac(t'.entries[i], request.mac)
                                && t'.entries[i].value.peer == peer)
                  && t'.pending[peer].clientId ==
                       if peer in t.pending then t.pending[peer].clientId else request.token.value.clientId)
  {
    hide CountTaken;
    hide FindPeer;
    hide FindId;
    hide PendingOk;
    hide SlotsOk;
    hide Apart;
    var entry := Entry(t.time, peer, request.mac);
    FindOrAddKeeps(t.entries, entry);
    BoundTo(t.entries, entry);
    hide FindOrAdd;
    hide OneEntryEach;
  }

  /**
   * A request that is not accepted is refused without an answer, with a packet that tells of it when
   * all slots are taken, or dropped as an error.
   */
  lemma RefusedExactly(t: Table, cfg: Config, peer: Peer, request: Request, encodes: bool)
    requires Inv(t) && FindPeer(t.slots, peer).None?
    ensures t.entries != []
    ensures var (t', outcome) := HandleRequest(t, cfg, peer, request, encodes);
            var room := peer in t.pending || |t.pending| < MAX_PENDING_CLIENTS;
            && (outcome == Denied(peer, false) <==>
                  InOrder(t, cfg, peer, request) && !(Welcome(t, cfg, peer, request) && room))
            && (outcome == Denied(peer, true) <==>
                  Welcome(t, cfg, peer, request) && room && encodes && CountTaken(t.slots) >= t.maxClients)
            && (outcome == Failed <==>
                  !InOrder(t, cfg, peer, request) || (Welcome(t, cfg, peer, request) && room && !encodes))
            && (outcome == Denied(peer, true) ==> t'.pending == t.pending - {peer})
            && (outcome == Denied(peer, false) || !InOrder(t, cfg, peer, request) ==> t' == t)
  {
    hide CountTaken;
    hide FindId;
    hide PendingOk;
    hide SlotsOk;
    hide Apart;
    var entry := Entry(t.time, peer, request.mac);
    FindOrAddKeeps(t.entries, entry);
    BoundTo(t.entries, entry);
    hide FindOrAdd;
    hide OneEntryEach;
  }

  lemma BoundTo(entries: seq<Option<Entry>>, entry: Entry)
    requires entries != [] && OneEntryEach(entries)
    ensures var (entries', ok) := FindOrAdd(entries, entry);
            && (ok <==> forall i :: 0 <= i < |entries| && HasMac(entries[i], entry.mac) ==>
                 entries[i].value.peer == entry.peer)
            && (ok ==> exists i :: 0 <= i < |entries'| && HasMac(entries'[i], entry.mac)
                                 && entries'[i].value.peer == entry.peer)
  {
    match FindMac(entries, entry.mac)
    case Some(i) =>
      assert HasMac(entries[i], entry.mac);
    case None =>
      var v := Victim(entries);
      assert HasMac(entries[v := Some(entry)][v], entry.mac);
  }

  // ----- How a client loses its slot

  /** The events that end the connection in slot `i`. */
  ghost predicate Ends(t: Table, event: Event, i: nat)
    requires i < |t.slots| && t.slots[i].Some?
  {
    var c := t.slots[i].value;
    match event
    case PacketArrives(peer, arrived, _) => peer == c.peer && arrived == Some(Disconnect)
    case ClientUpdated(id, _) => FindId(t.slots, id) == Some(i) && TimedOut(c, t.time)
    case ClientDropped(id, _) => FindId(t.slots, id) == Some(i)
    case _ => false
  }

  predicate SameClient(a: Connection, b: Connection) {
    && a.clientId == b.clientId && a.peer == b.peer && a.userData == b.userData && a.state == b.state
    && a.timeoutSeconds == b.timeoutSeconds && a.expireTimestamp == b.expireTimestamp
  }

  /**
   * A client keeps its slot until it says so itself, it times out, or the server drops it; nothing
   * that others send can end its connection or put another in its place.
   */
  lemma SlotEndsExactly(t: Table, cfg: Config, event: Event, i: nat)
    requires Inv(t) && Possible(t, event) && i < |t.slots| && t.slots[i].Some?
    ensures var t' := Step(t, cfg, event).0;
            && |t'.slots| == |t.slots| && (t'.slots[i].None? <==> Ends(t, event, i))
            && (t'.slots[i].Some? ==> SameClient(t'.slots[i].value, t.slots[i].value))
  {
    hide ProcessPacket;
    hide Possible;
    hide PendingOk;
    hide Apart;
    hide OneEntryEach;
    SlotState(t, i);
    match event
    case PacketArrives(peer, arrived, encodes) => PacketEnds(t, cfg, peer, arrived, encodes, i);
    case _ =>
  }

  /** The client of that id has lost its slot if it timed out, and no other client has lost its own. */
  ghost predicate OnlyTimedOut(slots: seq<Option<Connection>>, slots': seq<Option<Connection>>, id: nat, time: nat) {
    && |slots'| == |slots|
    && forall i :: 0 <= i < |slots| && slots[i].Some? ==>
         && (slots'[i].None? <==> FindId(slots, id) == Some(i) && TimedOut(slots[i].value, time))
         && (slots'[i].Some? ==> SameClient(slots'[i].value, slots[i].value))
  }

  lemma UpdateOnlyTimedOut(t: Table, cfg: Config, id: nat, encodes: bool)
    requires Inv(t)
    ensures OnlyTimedOut(t.slots, UpdateClient(t, id, encodes).0.slots, id, t.time)
  {
    var event := ClientUpdated(id, encodes);
    assert Possible(t, event);
    hide Inv;
    hide FindId;
    hide TimedOut;
    forall i | 0 <= i < |t.slots| && t.slots[i].Some?
      ensures var slots := UpdateClient(t, id, encodes).0.slots;
              && (slots[i].None? <==> FindId(t.slots, id) == Some(i) && TimedOut(t.slots[i].value, t.time))
              && (slots[i].Some? ==> SameClient(slots[i].value, t.slots[i].value))
    {
      SlotEndsExactly(t, cfg, event, i);
    }
  }

  lemma PacketEnds(t: Table, cfg: Config, peer: Peer, arrived: Option<Arrived>, encodes: bool, i: nat)
    requires Inv(t) && Possible(t, PacketArrives(peer, arrived, encodes)) && i < |t.slots| && t.slots[i].Some?
    ensures t.entries != []
    ensures var t' := ProcessPacket(t, cfg, peer, arrived, encodes).0;
            && |t'.slots| == |t.slots|
            && (t'.slots[i].None? <==> peer == t.slots[i].value.peer && arrived == Some(Disconnect))
            && (t'.slots[i].Some? ==> SameClient(t'.slots[i].value, t.slots[i].value))
  {
    hide PendingOk;
    hide Apart;
    hide OneEntryEach;
    hide FindOrAdd;
    hide CountTaken;
    hide FindId;
    match FindPeer(t.slots, peer)
    case Some(j) =>
      assert j == i <==> peer == t.slots[i].value.peer;
    case None =>
      assert !HasPeer(t.slots[i], peer);
  }

  /** Dropping an id leaves no client of that id exactly when there was one at most. */
  lemma DisconnectGone(t: Table, id: nat, encodes: bool)
    requires Inv(t)
    ensures var (t', outcome) := DisconnectClient(t, id, encodes);
            && (FindId(t'.slots, id).None? <==>
                  forall i, j :: 0 <= i < j < |t.slots| ==> !(HasId(t.slots[i], id) && HasId(t.slots[j], id)))
            && (outcome.ClientDisconnected? <==> exists i :: 0 <= i < |t.slots| && HasId(t.slots[i], id))
            && (outcome.ClientDisconnected? ==> FindPeer(t'.slots, outcome.peer).None? && outcome.peer !in t'.pending)
  {
    hide PendingOk;
    hide OneEntryEach;
    match FindId(t.slots, id)
    case None =>
    case Some(i) =>
      var slots := t.slots[i := None];
      assert HasId(t.slots[i], id);
      assert forall j :: 0 <= j < |slots| && j != i ==> slots[j] == t.slots[j];
      if FindId(slots, id).Some? {
        var j := FindId(slots, id).value;
        assert HasId(t.slots[j], id) && i < j;
      }
  }

  // ----- Who is connected

  /** What a token grants: the client id, the time without packets that is borne, and how long it is good for. */
  datatype Terms = Terms(clientId: nat, timeoutSeconds: int, expireTimestamp: nat)

  function TermsOf(c: Connection): Terms {
    Terms(c.clientId, c.timeoutSeconds, c.expireTimestamp)
  }

  function Granted(request: Request): Terms
    requires request.token.Some?
  {
    Terms(request.token.value.clientId, request.token.value.timeoutSeconds, request.expireTimestamp)
  }

  /** The packet is a request from the peer, welcome and accepted, whose token grants these terms. */
  ghost predicate Admits(t: Table, cfg: Config, event: Event, peer: Peer, terms: Terms) {
    && Possible(t, event) && Step(t, cfg, event).1.Accepted?
    && event.PacketArrives? && event.peer == peer && event.encodes && event.arrived.Some?
    && event.arrived.value.ConnectionRequest?
    && Welcome(t, cfg, peer, event.arrived.value.request) && Granted(event.arrived.value.request) == terms
  }

  ghost predicate AdmittedBefore(cfg: Config, states: seq<Table>, events: seq<Event>, n: nat, peer: Peer,
                                 terms: Terms) {
    exists k :: 0 <= k < n && k < |events| && k < |states| && Admits(states[k], cfg, events[k], peer, terms)
  }

  lemma RequestPending(t: Table, cfg: Config, peer: Peer, request: Request, encodes: bool, p: Peer)
    requires Inv(t) && t.entries != [] && p in HandleRequest(t, cfg, peer, request, encodes).0.pending
    ensures var c := HandleRequest(t, cfg, peer, request, encodes).0.pending[p];
            || (p in t.pending && TermsOf(t.pending[p]) == TermsOf(c))
            || (&& p == peer && encodes && Welcome(t, cfg, peer, request) && Granted(request) == TermsOf(c)
                && HandleRequest(t, cfg, peer, request, encodes).1.Accepted?)
  {
    hide PendingOk;
    hide SlotsOk;
    hide Apart;
    hide CountTaken;
    hide FindId;
    hide FindPeer;
    hide HasMac;
    BoundTo(t.entries, Entry(t.time, peer, request.mac));
    hide OneEntryEach;
    hide FindOrAdd;
  }

  lemma PacketPending(t: Table, cfg: Config, peer: Peer, arrived: Option<Arrived>, encodes: bool, p: Peer)
    requires Inv(t) && t.entries != [] && Decodable(t, peer, arrived)
    requires p in ProcessPacket(t, cfg, peer, arrived, encodes).0.pending
    ensures var c := ProcessPacket(t, cfg, peer, arrived, encodes).0.pending[p];
            || (p in t.pending && TermsOf(t.pending[p]) == TermsOf(c))
            || Admits(t, cfg, PacketArrives(peer, arrived, encodes), p, TermsOf(c))
  {
    hide Inv;
    hide FindId;
    hide FindPeer;
    hide HandleRequest;
    hide HasMac;
    if arrived.Some? && FindPeer(t.slots, peer).None? {
      if peer in t.pending {
        var heard := t.(pending := t.pending[peer := t.pending[peer].(lastReceived := t.time)]);
        HeardInv(t, peer);
        if arrived.value.ConnectionRequest? {
          RequestPending(heard, cfg, peer, arrived.value.request, encodes, p);
        }
      } else {
        RequestPending(t, cfg, peer, arrived.value.request, encodes, p);
      }
    }
  }

  /** A pending client is new only when its request is accepted, and otherwise keeps its terms. */
  lemma PendingFrom(t: Table, cfg: Config, event: Event, peer: Peer)
    requires Inv(t) && Possible(t, event) && peer in Step(t, cfg, event).0.pending
    ensures var c := Step(t, cfg, event).0.pending[peer];
            || (peer in t.pending && TermsOf(t.pending[peer]) == TermsOf(c))
            || Admits(t, cfg, event, peer, TermsOf(c))
  {
    hide Inv;
    hide Admits;
    hide FindId;
    hide FindPeer;
    hide ProcessPacket;
    if event.PacketArrives? {
      PacketPending(t, cfg, event.peer, event.arrived, event.encodes, peer);
    }
  }

  /** The slot holds a client that was in it before, or one that was pending on its terms. */
  ghost predicate Continues(t: Table, slots: seq<Option<Connection>>, i: nat)
    requires i < |slots| && slots[i].Some?
  {
    var c := slots[i].value;
    || (i < |t.slots| && t.slots[i].Some? && TermsOf(t.slots[i].value) == TermsOf(c) && t.slots[i].value.peer == c.peer)
    || (c.peer in t.pending && TermsOf(t.pending[c.peer]) == TermsOf(c))
  }

  lemma PacketSlots(t: Table, cfg: Config, peer: Peer, arrived: Option<Arrived>, encodes: bool, i: nat)
    requires Inv(t) && t.entries != [] && Decodable(t, peer, arrived)
    requires var slots := ProcessPacket(t, cfg, peer, arrived, encodes).0.slots; i < |slots| && slots[i].Some?
    ensures Continues(t, ProcessPacket(t, cfg, peer, arrived, encodes).0.slots, i)
  {
    hide SlotsOk;
    hide Apart;
    hide OneEntryEach;
    hide FindId;
    hide HandleRequest;
    hide FreeSlot;
    if arrived.Some? && FindPeer(t.slots, peer).None? && arrived.value.ConnectionRequest? {
      if peer in t.pending {
        HeardInv(t, peer);
        HandleRequestInv(t.(pending := t.pending[peer := t.pending[peer].(lastReceived := t.time)]), cfg, peer,
                         arrived.value.request, encodes);
      } else {
        HandleRequestInv(t, cfg, peer, arrived.value.request, encodes);
      }
    }
  }

  /** A slot is taken only by a client that was pending, on the terms it was pending with. */
  lemma SlotFrom(t: Table, cfg: Config, event: Event, i: nat)
    requires Inv(t) && Possible(t, event) && i < |Step(t, cfg, event).0.slots| && Step(t, cfg, event).0.slots[i].Some?
    ensures Continues(t, Step(t, cfg, event).0.slots, i)
  {
    hide Inv;
    hide ProcessPacket;
    if event.PacketArrives? {
      PacketSlots(t, cfg, event.peer, event.arrived, event.encodes, i);
    }
  }

  /**
   * Whoever is pending or connected in a reachable state had a request accepted before, with a
   * token that was valid then, grants the terms it is kept on, and was not in use by another address.
   */
  lemma {:induction false} ConnectedWereAdmitted(cfg: Config, states: seq<Table>, events: seq<Event>, n: nat)
    requires Run(cfg, states, events) && n < |states|
    ensures forall peer :: peer in states[n].pending ==>
              AdmittedBefore(cfg, states, events, n, peer, TermsOf(states[n].pending[peer]))
    ensures forall i :: 0 <= i < |states[n].slots| && states[n].slots[i].Some? ==>
              var c := states[n].slots[i].value; AdmittedBefore(cfg, states, events, n, c.peer, TermsOf(c))
  {
    hide Step;
    hide Inv;
    hide Possible;
    hide Admits;
    hide AdmittedBefore;
    if n > 0 {
      var t := states[n - 1];
      ConnectedWereAdmitted(cfg, states, events, n - 1);
      RunInv(cfg, states, events, n - 1);
      forall peer | peer in states[n].pending
        ensures AdmittedBefore(cfg, states, events, n, peer, TermsOf(states[n].pending[peer]))
      {
        PendingFrom(t, cfg, events[n - 1], peer);
        AdmittedNow(cfg, states, events, n, peer, TermsOf(states[n].pending[peer]));
      }
      forall i | 0 <= i < |states[n].slots| && states[n].slots[i].Some?
        ensures var c := states[n].slots[i].value; AdmittedBefore(cfg, states, events, n, c.peer, TermsOf(c))
      {
        var c := states[n].slots[i].value;
        SlotFrom(t, cfg, events[n - 1], i);
        AdmittedNow(cfg, states, events, n, c.peer, TermsOf(c));
      }
    }
  }

  lemma AdmittedNow(cfg: Config, states: seq<Table>, events: seq<Event>, n: nat, peer: Peer, terms: Terms)
    requires 0 < n <= |events| && n < |states|
    requires
               || AdmittedBefore(cfg, states, events, n - 1, peer, terms)
               || Admits(states[n - 1], cfg, events[n - 1], peer, terms)
    ensures AdmittedBefore(cfg, states, events, n, peer, terms)
  {
    hide Admits;
  }

  // ----- Client ids

  /**
   * Client ids stay unique unless a peer whose pending id is taken answers the challenge of
   * another id that is free: the check is on the challenge, the id stored is the pending one.
   */
  lemma AnswerUnique(t: Table, peer: Peer, challenge: ChallengeToken, encodes: bool)
    requires UniqueIds(t.slots) && peer in t.pending
    ensures UniqueIds(Answer(t, peer, challenge, encodes).0.slots) <==>
              !(&& encodes && FreeSlot(t.slots).Some? && FindId(t.slots, challenge.clientId).None?
                && FindId(t.slots, t.pending[peer].clientId).Some?)
  {
    var slots := Answer(t, peer, challenge, encodes).0.slots;
    if encodes && FreeSlot(t.slots).Some? && FindId(t.slots, challenge.clientId).None? {
      var free, id := FreeSlot(t.slots).value, t.pending[peer].clientId;
      if FindId(t.slots, id).Some? {
        var i := FindId(t.slots, id).value;
        assert slots[i].value.clientId == slots[free].value.clientId;
      }
    }
  }

  /** The peer answers the challenge it was sent for its own pending id. */
  ghost predicate OwnChallenge(t: Table, event: Event) {
    match event
    case PacketArrives(peer, Some(Response(Some(challenge))), _) =>
      peer in t.pending ==> challenge.clientId == t.pending[peer].clientId
    case _ => true
  }

  lemma SlotIdsKept(slots: seq<Option<Connection>>, i: nat, slot: Option<Connection>)
    requires UniqueIds(slots) && i < |slots| && slots[i].Some?
    requires slot.Some? ==> slot.value.clientId == slots[i].value.clientId
    ensures UniqueIds(slots[i := slot])
  {
  }

  lemma PacketUnique(t: Table, cfg: Config, peer: Peer, arrived: Option<Arrived>, encodes: bool)
    requires Inv(t) && UniqueIds(t.slots) && Decodable(t, peer, arrived)
    requires OwnChallenge(t, PacketArrives(peer, arrived, encodes))
    ensures t.entries != [] && UniqueIds(ProcessPacket(t, cfg, peer, arrived, encodes).0.slots)
  {
    hide Inv;
    hide UniqueIds;
    hide HandleRequest;
    hide Answer;
    InvEntries(t);
    if arrived.Some? {
      if FindPeer(t.slots, peer).Some? {
        var i := FindPeer(t.slots, peer).value;
        var c := t.slots[i].value.(lastReceived := t.time);
        SlotIdsKept(t.slots, i, None);
        SlotIdsKept(t.slots, i, Some(c));
        SlotIdsKept(t.slots, i, Some(c.(confirmed := true)));
      } else if peer in t.pending {
        var heard := t.(pending := t.pending[peer := t.pending[peer].(lastReceived := t.time)]);
        HeardInv(t, peer);
        match arrived.value
        case ConnectionRequest(request) => HandleRequestInv(heard, cfg, peer, request, encodes);
        case Response(Some(challenge)) => AnswerUnique(heard, peer, challenge, encodes);
        case _ =>
      } else {
        HandleRequestInv(t, cfg, peer, arrived.value.request, encodes);
      }
    }
  }

  lemma StepUnique(t: Table, cfg: Config, event: Event)
    requires Inv(t) && UniqueIds(t.slots) && Possible(t, event) && OwnChallenge(t, event)
    ensures UniqueIds(Step(t, cfg, event).0.slots)
  {
    hide Inv;
    hide UniqueIds;
    hide ProcessPacket;
    hide FindId;
    match event
    case PacketArrives(peer, arrived, encodes) => PacketUnique(t, cfg, peer, arrived, encodes);
    case TimePasses(_) =>
    case MaxClientsSet(_) =>
    case _ =>
      if FindId(t.slots, event.id).Some? {
        var i := FindId(t.slots, event.id).value;
        var c := t.slots[i].value;
        SlotIdsKept(t.slots, i, None);
        SlotIdsKept(t.slots, i, Some(c.(sequence := c.sequence + 1, lastSend := t.time)));
      }
  }

  /** On runs where every peer answers its own challenge, no two slots ever share a client id. */
  lemma {:induction false} RunUnique(cfg: Config, states: seq<Table>, events: seq<Event>, i: nat)
    requires Run(cfg, states, events) && i < |states|
    requires forall k :: 0 <= k < |events| ==> OwnChallenge(states[k], events[k])
    ensures UniqueIds(states[i].slots)
  {
    hide Inv;
    hide Step;
    hide UniqueIds;
    hide OwnChallenge;
    if i == 0 {
      NewInv(states[0]);
    } else {
      RunUnique(cfg, states, events, i - 1);
      RunInv(cfg, states, events, i - 1);
      StepUnique(states[i - 1], cfg, events[i - 1]);
    }
  }

  // ----- A run on which two slots share a client id

  ghost predicate MacsWithin(entries: seq<Option<Entry>>, macs: set<nat>) {
    forall i :: 0 <= i < |entries| && entries[i].Some? ==> entries[i].value.mac in macs
  }

  function Asks(id: nat, mac: nat): Arrived {
    ConnectionRequest(Request(true, 0, 1, Some(Token(id, 0, false, 0, [])), mac))
  }

  function Answers(id: nat): Arrived {
    Response(Some(ChallengeToken(id, [])))
  }

  /** A request with a token not seen before is let through and leaves the slots alone. */
  lemma Asked(t: Table, cfg: Config, peer: Peer, id: nat, mac: nat, macs: set<nat>)
    requires cfg == Config(0, 1, false) && peer.socket == 0 && t.time == 0 && t.entries != []
    requires FindPeer(t.slots, peer).None? && FindId(t.slots, id).None? && CountTaken(t.slots) < t.maxClients
    requires |t.pending| < MAX_PENDING_CLIENTS && MacsWithin(t.entries, macs) && mac !in macs
    ensures var (t', outcome) := ProcessPacket(t, cfg, peer, Some(Asks(id, mac)), true);
            && outcome == Accepted(id, peer) && t'.slots == t.slots && t'.maxClients == t.maxClients && t'.time == 0
            && t'.entries != [] && MacsWithin(t'.entries, macs + {mac})
            && peer in t'.pending && t'.pending == t.pending[peer := t'.pending[peer]]
            && t'.pending[peer].clientId == if peer in t.pending then t.pending[peer].clientId else id
  {
    hide IsVictim;
    VictimIndex(t.entries, Victim(t.entries));
    if peer in t.pending {
      PendingSize(t.pending, peer, t.pending[peer].(lastReceived := 0));
    }
  }

  lemma NoneTaken(slots: seq<Option<Connection>>)
    requires slots == [None, None]
    ensures CountTaken(slots) == 0
  {
    assert slots[..1] == [None];
    assert CountTaken(slots[..1]) == CountTaken(slots[..1][..0]);
  }

  /** A run can go on with any event that is possible. */
  lemma RunOn(cfg: Config, states: seq<Table>, events: seq<Event>, event: Event)
    requires Run(cfg, states, events) && Possible(states[|states| - 1], event)
    ensures Run(cfg, states + [Step(states[|states| - 1], cfg, event).0], events + [event])
  {
    hide Step;
    hide Possible;
    hide New;
  }

  lemma AnswerStep(t: Table, cfg: Config, peer: Peer, id: nat)
    requires t.entries != [] && peer in t.pending && FindPeer(t.slots, peer).None?
    ensures Decodable(t, peer, Some(Answers(id)))
    ensures var heard := t.(pending := t.pending[peer := t.pending[peer].(lastReceived := t.time)]);
            ProcessPacket(t, cfg, peer, Some(Answers(id)), true) == Answer(heard, peer, ChallengeToken(id, []), true)
  {
  }

  /** Both peers are pending as client 1: the second to answer doubles the id. */
  lemma BothAnswer(t: Table, cfg: Config, p1: Peer, p2: Peer)
    requires t.slots == [None, None] && t.entries != [] && p1 != p2 && p1 in t.pending && p2 in t.pending
    requires t.pending[p1].clientId == 1 && t.pending[p2].clientId == 1 && t.pending[p1].peer == p1
    ensures Decodable(t, p1, Some(Answers(1)))
    ensures var t4 := ProcessPacket(t, cfg, p1, Some(Answers(1)), true).0;
            && t4.entries != [] && Decodable(t4, p2, Some(Answers(2)))
            && !UniqueIds(ProcessPacket(t4, cfg, p2, Some(Answers(2)), true).0.slots)
  {
    hide ProcessPacket;
    hide FindPeer;
    hide FindId;
    hide FreeSlot;
    AnswerStep(t, cfg, p1, 1);
    var t4 := ProcessPacket(t, cfg, p1, Some(Answers(1)), true).0;
    assert t.slots[0].None?;
    assert FreeSlot(t.slots) == Some(0);
    assert t4.slots[0].Some? && t4.slots[0].value.clientId == 1 && t4.slots[1].None?;
    AnswerStep(t4, cfg, p2, 2);
    AnswerUnique(t4.(pending := t4.pending[p2 := t4.pending[p2].(lastReceived := t4.time)]), p2, ChallengeToken(2, []),
                 true);
  }

  lemma FreshMacs(entries: seq<Option<Entry>>)
    requires forall i :: 0 <= i < |entries| ==> entries[i].None?
    ensures MacsWithin(entries, {})
  {
  }

  /** Two peers end up pending as client 1, although the second was also challenged as client 2. */
  lemma BothAsk(t0: Table, cfg: Config, p1: Peer, p2: Peer)
    requires New(t0) && t0.slots == [None, None] && t0.maxClients == 2 && t0.time == 0
    requires cfg == Config(0, 1, false) && p1 == Peer(0, 1) && p2 == Peer(0, 2)
    ensures var t1 := ProcessPacket(t0, cfg, p1, Some(Asks(1, 1)), true).0;
            && t1.entries != []
            && var t2 := ProcessPacket(t1, cfg, p2, Some(Asks(1, 2)), true).0;
               && t2.entries != []
               && var t3 := ProcessPacket(t2, cfg, p2, Some(Asks(2, 3)), true).0;
                  && t3.entries != [] && t3.slots == [None, None] && p1 in t3.pending && p2 in t3.pending
                  && t3.pending[p1].clientId == 1 && t3.pending[p2].clientId == 1
  {
    hide ProcessPacket;
    hide MacsWithin;
    hide FindPeer;
    hide FindId;
    hide CountTaken;
    NoneTaken(t0.slots);
    FreshMacs(t0.entries);
    Asked(t0, cfg, p1, 1, 1, {});
    var t1 := ProcessPacket(t0, cfg, p1, Some(Asks(1, 1)), true).0;
    PendingSize(t0.pending, p1, t1.pending[p1]);
    Asked(t1, cfg, p2, 1, 2, {} + {1});
    var t2 := ProcessPacket(t1, cfg, p2, Some(Asks(1, 2)), true).0;
    PendingSize(t1.pending, p2, t2.pending[p2]);
    Asked(t2, cfg, p2, 2, 3, {} + {1} + {2});
  }

  /**
   * Peers 1 and 2 both ask for client id 1; peer 2 asks again for id 2 and stays pending under
   * id 1. Peer 1 answers for id 1, then peer 2 answers for id 2: both are connected as client 1.
   */
  lemma SharedClientId()
    ensures exists cfg: Config, states: seq<Table>, events: seq<Event> ::
              Run(cfg, states, events) && !UniqueIds(states[|states| - 1].slots)
  {
    hide ProcessPacket;
    hide Run;
    hide UniqueIds;
    var cfg, p1, p2 := Config(0, 1, false), Peer(0, 1), Peer(0, 2);
    var t0 := Table([None, None], map[], seq(2 * MAX_CLIENTS, _ => None), 2, 0, 0, 0);
    BothAsk(t0, cfg, p1, p2);
    var states, events := [t0], [];
    StartRun(cfg, t0);
    states, events := Extended(cfg, states, events, PacketArrives(p1, Some(Asks(1, 1)), true));
    RunInv(cfg, states, events, 1);
    states, events := Extended(cfg, states, events, PacketArrives(p2, Some(Asks(1, 2)), true));
    states, events := Extended(cfg, states, events, PacketArrives(p2, Some(Asks(2, 3)), true));
    RunInv(cfg, states, events, 3);
    PendingPeers(states[3]);
    BothAnswer(states[3], cfg, p1, p2);
    states, events := Extended(cfg, states, events, PacketArrives(p1, Some(Answers(1)), true));
    states, events := Extended(cfg, states, events, PacketArrives(p2, Some(Answers(2)), true));
  }

  lemma StartRun(cfg: Config, t: Table)
    requires New(t)
    ensures Run(cfg, [t], [])
  {
  }

  lemma PendingPeers(t: Table)
    requires Inv(t)
    ensures forall p :: p in t.pending ==> t.pending[p].peer == p
  {
  }

  lemma Extended(cfg: Config, states: seq<Table>, events: seq<Event>, event: Event)
    returns (states': seq<Table>, events': seq<Event>)
    requires states != [] && Run(cfg, states, events) && Possible(states[|states| - 1], event)
    ensures Run(cfg, states', events') && |states'| == |states| + 1
    ensures states'[|states|] == Step(states[|states| - 1], cfg, event).0 && states'[..|states|] == states
  {
    hide Run;
    RunOn(cfg, states, events, event);
    states', events' := states + [Step(states[|states| - 1], cfg, event).0], events + [event];
  }
}

/** The server object (renetcode2/src/server.rs, `NetcodeServer`). */
module NetcodeServers {
  import opened Base
  import opened NetcodeTable
  import T = NetcodeTable

  class NetcodeServer {
    const config: Config
    const clients: array<Option<Connection>>
    const tokenEntries: array<Option<Entry>>
    var pendingClients: map<Peer, Connection>
    var maxClients: nat
    var currentTime: nat
    var challengeSequence: nat
    var globalSequence: nat

    ghost function View(): Table
      reads this, clients, tokenEntries
    {
      Table(clients[..], pendingClients, tokenEntries[..], maxClients, currentTime, challengeSequence, globalSequence)
    }

    ghost predicate Valid()
      reads this, clients, tokenEntries
    {
      Inv(View())
    }

    /** More clients than the limit are a panic in the code. */
    constructor (config: Config, maxClients: nat, currentTime: nat)
      requires maxClients <= MAX_CLIENTS && config.numSockets > 0
      ensures Valid() && New(View()) && fresh(clients) && fresh(tokenEntries)
      ensures this.config == config && clients.Length == maxClients && this.maxClients == maxClients
      ensures this.currentTime == currentTime
    {
      this.config, this.maxClients, this.currentTime := config, maxClients, currentTime;
      clients := new Option<Connection>[maxClients](_ => None);
      tokenEntries := new Option<Entry>[2 * MAX_CLIENTS](_ => None);
      pendingClients, challengeSequence, globalSequence := map[], 0, 0;
      new;
      NewInv(View());
    }

    method FindClientByPeer(peer: Peer) returns (r: Option<nat>)
      ensures r == FindPeer(clients[..], peer)
    {
      hide FindPeer;
      for i := 0 to clients.Length
        invariant forall j :: 0 <= j < i ==> !HasPeer(clients[..][j], peer)
      {
        assert clients[..][i] == clients[i];
        if clients[i].Some? && clients[i].value.peer == peer {
          return Some(i);
        }
      }
      return None;
    }

    method FindClientById(id: nat) returns (r: Option<nat>)
      ensures r == FindId(clients[..], id)
    {
      hide FindId;
      for i := 0 to clients.Length
        invariant forall j :: 0 <= j < i ==> !HasId(clients[..][j], id)
      {
        assert clients[..][i] == clients[i];
        if clients[i].Some? && clients[i].value.clientId == id {
          return Some(i);
        }
      }
      return None;
    }

    method FindFreeSlot() returns (r: Option<nat>)
      ensures r == FreeSlot(clients[..])
    {
      hide FreeSlot;
      for i := 0 to clients.Length
        invariant forall j :: 0 <= j < i ==> clients[..][j].Some?
      {
        assert clients[..][i] == clients[i];
        if clients[i].None? {
          return Some(i);
        }
      }
      return None;
    }

    method ConnectedClients() returns (n: nat)
      ensures n == CountTaken(clients[..])
    {
      n := 0;
      for i := 0 to clients.Length
        invariant n == CountTaken(clients[..i])
      {
        assert clients[..i + 1][..i] == clients[..i];
        if clients[i].Some? {
          n := n + 1;
        }
      }
      assert clients[..clients.Length] == clients[..];
    }

    /** One scan finds a matching entry and the place for a new one. */
    method FindOrAddConnectTokenEntry(entry: Entry) returns (ok: bool)
      requires tokenEntries.Length > 0
      modifies tokenEntries
      ensures (tokenEntries[..], ok) == FindOrAdd(old(tokenEntries[..]), entry)
    {
      hide FindMac;
      var min: Option<nat> := None;
      var oldest, empty := 0, false;
      var matching: Option<nat> := None;
      for i := 0 to tokenEntries.Length
        invariant Scanned(tokenEntries[..], i, oldest, empty, min)
        invariant Matched(tokenEntries[..], i, matching, entry.mac)
      {
        match tokenEntries[i]
        case Some(e) =>
          if e.mac == entry.mac {
            matching := Some(i);
          }
          if !empty && (min.None? || e.time < min.value) {
            oldest, min := i, Some(e.time);
          }
        case None =>
          if !empty {
            empty, oldest := true, i;
          }
      }
      MatchedIsFound(tokenEntries[..], matching, entry.mac);
      if matching.Some? {
        return tokenEntries[matching.value].value.peer == entry.peer;
      }
      ScannedIsVictim(tokenEntries[..], oldest, empty, min);
      tokenEntries[oldest] := Some(entry);
      return true;
    }

    method HandleConnectionRequest(peer: Peer, request: Request, encodes: bool) returns (r: Outcome)
      requires tokenEntries.Length > 0
      modifies `pendingClients, `challengeSequence, `globalSequence, tokenEntries
      ensures (View(), r) == HandleRequest(old(View()), config, peer, request, encodes)
      ensures old(Inv(View())) ==>
                (r.Accepted? <==>
                  && Welcome(old(View()), config, peer, request) && encodes && CountTaken(clients[..]) < maxClients
                  && (peer in old(pendingClients) || |old(pendingClients)| < MAX_PENDING_CLIENTS))
      ensures r.Accepted? ==> peer in pendingClients && clients[..] == old(clients[..])
    {
      hide FindPeer;
      hide FindId;
      hide FindOrAdd;
      hide CountTaken;
      hide Inv;
      hide Welcome;
      if Inv(View()) {
        AcceptedExactly(View(), config, peer, request, encodes);
      }
      if !request.versionOk || request.protocolId != config.protocolId ||
          currentTime / NANOS >= request.expireTimestamp {
        return Failed;
      }
      if request.token.None? || peer.socket >= config.numSockets || peer.socket != request.token.value.socketId {
        return Failed;
      }
      var token := request.token.value;
      if config.secure && !token.listed {
        return Failed;
      }
      var slot := FindClientByPeer(peer);
      if slot.Some? {
        return if clients[slot.value].value.clientId == token.clientId then Nothing else Denied(peer, false);
      }
      slot := FindClientById(token.clientId);
      if slot.Some? {
        return Denied(peer, false);
      }
      if peer !in pendingClients && |pendingClients| >= MAX_PENDING_CLIENTS {
        return Denied(peer, false);
      }
      DeniedUnchanged(tokenEntries[..], Entry(currentTime, peer, request.mac));
      var ok := FindOrAddConnectTokenEntry(Entry(currentTime, peer, request.mac));
      if !ok {
        return Denied(peer, false);
      }
      r := AnswerRequest(peer, request, encodes);
    }

    method AnswerRequest(peer: Peer, request: Request, encodes: bool) returns (r: Outcome)
      requires request.token.Some?
      modifies `pendingClients, `challengeSequence, `globalSequence
      ensures (View(), r) == Challenged(old(View()), peer, request, encodes)
    {
      hide CountTaken;
      var token := request.token.value;
      var taken := ConnectedClients();
      if taken >= maxClients {
        pendingClients := pendingClients - {peer};
        if !encodes {
          return Failed;
        }
        globalSequence := globalSequence + 1;
        return Denied(peer, true);
      }
      challengeSequence := challengeSequence + 1;
      if !encodes {
        return Failed;
      }
      globalSequence := globalSequence + 1;
      ghost var before := pendingClients;
      if peer !in pendingClients {
        var added := Connection(false, token.clientId, PendingResponse, peer, token.userData, currentTime, currentTime,
                                token.timeoutSeconds, 0, request.expireTimestamp);
        pendingClients := pendingClients[peer := added];
      }
      var pending := pendingClients[peer].(lastReceived := currentTime, lastSend := currentTime);
      pendingClients := pendingClients[peer := pending];
      assert pendingClients == before[peer := pending];
      return Accepted(token.clientId, peer);
    }

    method ProcessClientPacket(slot: nat, arrived: Arrived) returns (r: Outcome)
      requires slot < clients.Length && clients[slot].Some?
      modifies clients
      ensures (View(), r) == FromClient(old(View()), slot, arrived)
    {
      var client := clients[slot].value.(lastReceived := currentTime);
      clients[slot] := Some(client);
      if client.state != Connected {
        return Nothing;
      }
      match arrived
      case Disconnect =>
        clients[slot] := None;
        assert clients[..] == old(clients[..])[slot := None];
        return ClientDisconnected(client.clientId, client.peer, false);
      case Payload =>
        if !client.confirmed {
          clients[slot] := Some(client.(confirmed := true));
        }
        assert client.confirmed ==> client == client.(confirmed := true);
        assert clients[..] == old(clients[..])[slot := Some(client.(confirmed := true))];
        return PayloadFrom(client.clientId);
      case KeepAlive =>
        if !client.confirmed {
          clients[slot] := Some(client.(confirmed := true));
        }
        assert client.confirmed ==> client == client.(confirmed := true);
        assert clients[..] == old(clients[..])[slot := Some(client.(confirmed := true))];
        return Nothing;
      case _ => return Nothing;
    }

    method ProcessResponse(peer: Peer, challenge: ChallengeToken, encodes: bool) returns (r: Outcome)
      requires peer in pendingClients
      modifies `pendingClients, `globalSequence, clients
      ensures (View(), r) == Answer(old(View()), peer, challenge, encodes)
    {
      hide FindId;
      hide FreeSlot;
      var pending := pendingClients[peer];
      pendingClients := pendingClients - {peer};
      var slot := FindClientById(challenge.clientId);
      if slot.Some? {
        return Nothing;
      }
      slot := FindFreeSlot();
      if slot.None? {
        if !encodes {
          return Failed;
        }
        globalSequence := globalSequence + 1;
        return Denied(peer, true);
      }
      pending := pending.(state := Connected, userData := challenge.userData, lastSend := currentTime);
      if !encodes {
        return Failed;
      }
      pending := pending.(sequence := pending.sequence + 1);
      clients[slot.value] := Some(pending);
      return ClientConnected(pending.clientId, peer, pending.userData);
    }

    method ProcessPendingPacket(peer: Peer, arrived: Arrived, encodes: bool) returns (r: Outcome)
      requires peer in pendingClients && tokenEntries.Length > 0
      modifies `pendingClients, `challengeSequence, `globalSequence, clients, tokenEntries
      ensures (View(), r) == FromPending(old(View()), config, peer, arrived, encodes)
    {
      hide HandleRequest;
      hide Answer;
      pendingClients := pendingClients[peer := pendingClients[peer].(lastReceived := currentTime)];
      match arrived
      case ConnectionRequest(request) =>
        r := HandleConnectionRequest(peer, request, encodes);
      case Response(None) => return Failed;
      case Response(Some(challenge)) =>
        r := ProcessResponse(peer, challenge, encodes);
      case _ => return Nothing;
    }

    /** A packet whose socket does not exist is a panic in the code. */
    method ProcessPacket(peer: Peer, arrived: Option<Arrived>, encodes: bool) returns (r: Outcome)
      requires Valid() && peer.socket < config.numSockets && Decodable(View(), peer, arrived)
      modifies `pendingClients, `challengeSequence, `globalSequence, clients, tokenEntries
      ensures Valid() && (View(), r) == Step(old(View()), config, PacketArrives(peer, arrived, encodes))
    {
      hide FindPeer;
      hide HandleRequest;
      hide FromPending;
      hide FromClient;
      hide Inv;
      InvEntries(View());
      StepInv(View(), config, PacketArrives(peer, arrived, encodes));
      if arrived.None? {
        return Failed;
      }
      var slot := FindClientByPeer(peer);
      if slot.Some? {
        r := ProcessClientPacket(slot.value, arrived.value);
      } else if peer in pendingClients {
        r := ProcessPendingPacket(peer, arrived.value, encodes);
      } else {
        r := HandleConnectionRequest(peer, arrived.value.request, encodes);
      }
    }

    /** Time moves on and pending connections with an expired token are dropped. */
    method Update(duration: nat)
      requires Valid()
      modifies `currentTime, `pendingClients
      ensures Valid() && View() == T.Update(old(View()), duration)
    {
      hide Inv;
      UpdateInv(View(), duration);
      currentTime := currentTime + duration;
      ghost var before := pendingClients;
      var rest := pendingClients.Keys;
      while rest != {}
        modifies `pendingClients
        invariant rest <= before.Keys
        invariant forall p :: p in pendingClients <==> p in before && (p in rest || !Expired(before[p], currentTime))
        invariant forall p :: p in pendingClients ==> pendingClients[p] == before[p]
        decreases rest
      {
        var peer :| peer in rest;
        if currentTime / NANOS > pendingClients[peer].expireTimestamp {
          pendingClients := pendingClients - {peer};
        }
        rest := rest - {peer};
      }
      assert pendingClients == Unexpired(before, currentTime);
    }

    method UpdateClient(id: nat, encodes: bool) returns (r: Outcome)
      requires Valid()
      modifies clients
      ensures Valid() && (View(), r) == T.UpdateClient(old(View()), id, encodes)
      ensures OnlyTimedOut(old(clients[..]), clients[..], id, currentTime)
    {
      UpdateOnlyTimedOut(View(), config, id, encodes);
      hide OnlyTimedOut;
      hide Inv;
      hide FindId;
      ClientOpsInv(View(), id, 0, encodes);
      var found := FindClientById(id);
      if found.None? {
        return Nothing;
      }
      var slot := found.value;
      var client := clients[slot].value;
      if client.timeoutSeconds > 0 && client.lastReceived + client.timeoutSeconds * NANOS < currentTime {
        client := client.(state := Disconnected);
      }
      if client.state == Disconnected {
        clients[slot] := None;
        return ClientDisconnected(id, client.peer, encodes);
      }
      if client.lastSend + SEND_RATE <= currentTime {
        if !encodes {
          return Nothing;
        }
        clients[slot] := Some(client.(sequence := client.sequence + 1, lastSend := currentTime));
        return ToSend(client.peer);
      }
      return Nothing;
    }

    method Disconnect(id: nat, encodes: bool) returns (r: Outcome)
      requires Valid()
      modifies clients
      ensures Valid() && (View(), r) == DisconnectClient(old(View()), id, encodes)
      ensures FindId(clients[..], id).None? <==>
                old(forall i, j :: 0 <= i < j < clients.Length ==> !(HasId(clients[i], id) && HasId(clients[j], id)))
      ensures r.ClientDisconnected? ==> FindPeer(clients[..], r.peer).None? && r.peer !in pendingClients
    {
      DisconnectGone(View(), id, encodes);
      hide Inv;
      hide FindPeer;
      hide FindId;
      ClientOpsInv(View(), id, 0, encodes);
      var slot := FindClientById(id);
      if slot.None? {
        return Nothing;
      }
      var client := clients[slot.value].value;
      clients[slot.value] := None;
      return ClientDisconnected(id, client.peer, encodes);
    }

    method SetMaxClients(n: nat)
      requires Valid()
      modifies `maxClients
      ensures Valid() && View() == T.SetMaxClients(old(View()), n)
    {
      maxClients := if n < MAX_CLIENTS then n else MAX_CLIENTS;
    }

    method GeneratePayloadPacket(id: nat, size: nat, encodes: bool) returns (r: Outcome)
      requires Valid()
      modifies clients
      ensures Valid() && (View(), r) == GeneratePayload(old(View()), id, size, encodes)
    {
      hide Inv;
      hide FindId;
      ClientOpsInv(View(), id, size, encodes);
      if size > MAX_PAYLOAD_BYTES {
        return Failed;
      }
      var slot := FindClientById(id);
      if slot.None? || !encodes {
        return Failed;
      }
      var client := clients[slot.value].value;
      clients[slot.value] := Some(client.(sequence := client.sequence + 1, lastSend := currentTime));
      return ToSend(client.peer);
    }
  }

  lemma DeniedUnchanged(entries: seq<Option<Entry>>, entry: Entry)
    requires entries != []
    ensures !FindOrAdd(entries, entry).1 ==> FindOrAdd(entries, entry).0 == entries
  {
  }

  /** Where the scan stands after `n` entries. */
  ghost predicate Scanned(entries: seq<Option<Entry>>, n: nat, oldest: nat, empty: bool, min: Option<nat>) {
    && n <= |entries| && (n > 0 ==> oldest < n)
    && if empty then oldest < n && entries[oldest].None? && forall j :: 0 <= j < oldest ==> entries[j].Some?
       else
         && (forall j :: 0 <= j < n ==> entries[j].Some?)
         && (n == 0 <==> min.None?)
         && (min.Some? ==>
               && min.value == entries[oldest].value.time
               && (forall j :: 0 <= j < n ==> min.value <= entries[j].value.time)
               && (forall j :: 0 <= j < oldest ==> min.value < entries[j].value.time))
  }

  ghost predicate Matched(entries: seq<Option<Entry>>, n: nat, matching: Option<nat>, mac: nat) {
    && n <= |entries|
    && match matching
       case None => forall j :: 0 <= j < n ==> !HasMac(entries[j], mac)
       case Some(i) => i < n && HasMac(entries[i], mac) && forall j :: i < j < n ==> !HasMac(entries[j], mac)
  }

  lemma MatchedIsFound(entries: seq<Option<Entry>>, matching: Option<nat>, mac: nat)
    requires Matched(entries, |entries|, matching, mac)
    ensures matching == FindMac(entries, mac)
  {
  }

  lemma ScannedIsVictim(entries: seq<Option<Entry>>, oldest: nat, empty: bool, min: Option<nat>)
    requires entries != [] && Scanned(entries, |entries|, oldest, empty, min)
    ensures oldest < |entries| && oldest == Victim(entries)
  {
    assert IsVictim(entries, oldest);
    VictimUnique(entries, oldest, Victim(entries));
  }
}
