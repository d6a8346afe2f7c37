/**
  The host's links to its joiners. Over a joiner's authority link go its greeting and the orders that build the mesh;
  over its peer link go routed events, kept back until that link is ready.
*/
module HostLinks {
  import opened Wrappers
  import opened Text
  import opened Ordering
  import opened RoomProtocol
  import opened RoomAuthority
  import opened FileReceive

  datatype AuthorityMessage = Told(event: Event) | PeerConnect(peer: Member, ticket: string, dial: bool)

  /**
    `authority` and `sent` are all that was ever put on the two links; `pending` waits for the peer link. That link is
    `broken` once what writes to it has ended, which the host learns when it next puts something on it.
  */
  datatype PeerHandle = PeerHandle(
    member: Member, ticket: Option<string>, authority: seq<AuthorityMessage>,
    ready: bool, sent: seq<Event>, pending: seq<Event>, broken: bool)

  datatype Host = Host(room: Room, peers: map<MemberId, PeerHandle>, files: HostFiles)

  datatype Input =
    | Connect(name: string, fingerprint: Option<string>, ticket: Option<string>)
    | LinkReady(peer: MemberId)
    | LinkBroken(peer: MemberId)
    | Gone(member: MemberId, reason: Option<string>)
    | Commanded(actor: MemberId, command: Command)
    | FileArrived(channel: ChannelId, file: ReceivedFile)
    | PathArrived(channel: ChannelId)
    | TransferPrepared(channel: ChannelId, size: nat, offer: TransferOffer)
    | PreparationFailed(channel: ChannelId)

  /** What ends the host's session. */
  datatype LinkError = RoomRefused(error: RoomError) | MissingTicket | LinkClosed

  // ----- delivery -----

  /** The events of a list of deliveries that are for one recipient, in order. */
  function EventsFor(routed: seq<Routed>, p: MemberId): seq<Event> {
    if routed == [] then []
    else
      var last := routed[|routed| - 1];
      EventsFor(routed[..|routed| - 1], p) + (if last.recipient == p then [last.event] else [])
  }

  function TellAll(peer: PeerHandle, events: seq<Event>): PeerHandle {
    if peer.ready then peer.(sent := peer.sent + events) else peer.(pending := peer.pending + events)
  }

  /** Every peer is handed its own events, in the order they were emitted. */
  function Delivered(peers: map<MemberId, PeerHandle>, routed: seq<Routed>): map<MemberId, PeerHandle> {
    map p | p in peers :: TellAll(peers[p], EventsFor(routed, p))
  }

  /** Nothing more can be put on this recipient's link. */
  predicate Dead(peers: map<MemberId, PeerHandle>, p: MemberId) {
    p in peers && peers[p].ready && peers[p].broken
  }

  /** How many deliveries are made: those before the first to a dead link. */
  function Reach(peers: map<MemberId, PeerHandle>, routed: seq<Routed>): (n: nat)
    ensures n <= |routed|
    ensures forall i | 0 <= i < n :: !Dead(peers, routed[i].recipient)
    ensures n < |routed| ==> Dead(peers, routed[n].recipient)
  {
    if routed == [] || Dead(peers, routed[0].recipient) then 0 else 1 + Reach(peers, routed[1..])
  }

  function Made(peers: map<MemberId, PeerHandle>, routed: seq<Routed>): seq<Routed> {
    routed[..Reach(peers, routed)]
  }

  predicate Cut(peers: map<MemberId, PeerHandle>, routed: seq<Routed>) {
    Reach(peers, routed) < |routed|
  }

  function Flushed(peer: PeerHandle): PeerHandle {
    peer.(ready := true, sent := peer.sent + peer.pending, pending := [], broken := false)
  }

  // ----- introductions -----

  ghost predicate AllTicketed(peers: map<MemberId, PeerHandle>) {
    forall p | p in peers :: peers[p].ticket.Some?
  }

  function Introduction(peer: PeerHandle, dial: bool): AuthorityMessage
    requires peer.ticket.Some?
  {
    PeerConnect(peer.member, peer.ticket.value, dial)
  }

  /** What a newcomer is told about the peers already there. */
  function Introductions(peers: map<MemberId, PeerHandle>, ids: seq<MemberId>): seq<AuthorityMessage>
    requires AllTicketed(peers) && forall i | 0 <= i < |ids| :: ids[i] in peers
  {
    seq(|ids|, i requires 0 <= i < |ids| => Introduction(peers[ids[i]], false))
  }

  /** The peers in `told` have been ordered to dial the newcomer. */
  function DialOrdered(peers: map<MemberId, PeerHandle>, told: seq<MemberId>, newcomer: PeerHandle)
    : (r: map<MemberId, PeerHandle>)
    requires newcomer.ticket.Some?
    ensures r.Keys == peers.Keys
  {
    map p | p in peers ::
      if p in told then peers[p].(authority := peers[p].authority + [Introduction(newcomer, true)]) else peers[p]
  }

  function GreetingMessages(room: Room, joiner: MemberId): seq<AuthorityMessage> {
    [Told(Greeting(room, joiner)[0]), Told(Greeting(room, joiner)[1])]
  }

  function Admitted(peers: map<MemberId, PeerHandle>, newcomer: PeerHandle, room: Room)
    : (r: map<MemberId, PeerHandle>)
    requires AllTicketed(peers) && newcomer.ticket.Some?
    ensures r.Keys == peers.Keys + {newcomer.member.id}
    ensures AllTicketed(r)
  {
    var ids := Sorted(peers.Keys);
    var id := newcomer.member.id;
    var queue := Introductions(peers, ids) + GreetingMessages(room, id);
    DialOrdered(peers, ids, newcomer)[id := newcomer.(authority := queue)]
  }

  // ----- the host's steps -----

  function CommandChannel(c: Command): Option<ChannelId> {
    match c
    case SendChat(_, _) => None
    case OpenChannel(channel, _, _, _, _, _, _) => Some(channel)
    case UpdateChannelTransfer(channel, _, _) => Some(channel)
    case AcceptChannel(channel) => Some(channel)
    case RejectChannel(channel, _) => Some(channel)
    case SendChannelData(channel, _) => Some(channel)
    case CloseChannel(channel, _) => Some(channel)
  }

  function Complained(peers: map<MemberId, PeerHandle>, actor: MemberId, command: Command): map<MemberId, PeerHandle> {
    if actor !in peers then peers
    else
      var complaint := Told(CommandFailed(CommandChannel(command)));
      peers[actor := peers[actor].(authority := peers[actor].authority + [complaint])]
  }

  function Newcomer(h: Host, name: string, fingerprint: Option<string>, ticket: Option<string>): PeerHandle {
    PeerHandle(Member(MemberName(h.room.nextIndex), name, fingerprint), ticket, [], false, [], [], false)
  }

  /** What an operation's outcome sends out. */
  function Announced(out: Outcome): seq<Routed> {
    if out.Applied? then Fanout(out.recipients, out.event) else []
  }

  ghost function Connected(h: Host, name: string, fingerprint: Option<string>, ticket: Option<string>)
    : Result<Host, LinkError>
  {
    var newcomer := Newcomer(h, name, fingerprint, ticket);
    var out := JoinRoom(h.room, name, fingerprint);
    if out.Refused? then Failure(RoomRefused(out.error))
    else if ticket.None? || !AllTicketed(h.peers) then Failure(MissingTicket)
    else
      var admitted := Admitted(h.peers, newcomer, out.room);
      if Cut(admitted, Announced(out)) then Failure(LinkClosed)
      else Success(Host(out.room, Delivered(admitted, Announced(out)), h.files))
  }

  function MadeReady(h: Host, peer: MemberId): Host {
    if peer in h.peers then h.(peers := h.peers[peer := Flushed(h.peers[peer])]) else h
  }

  function Broken(h: Host, peer: MemberId): Host {
    if peer in h.peers then h.(peers := h.peers[peer := h.peers[peer].(broken := true)]) else h
  }

  function Departed(h: Host, member: MemberId, reason: Option<string>): Host {
    var out := LeaveRoom(h.room, member, reason);
    Host(if out.Applied? then out.room else h.room, Delivered(h.peers - {member}, Announced(out)), h.files)
  }

  function Leaving(h: Host, member: MemberId, reason: Option<string>): Result<Host, LinkError> {
    if Cut(h.peers - {member}, Announced(LeaveRoom(h.room, member, reason))) then Failure(LinkClosed)
    else Success(Departed(h, member, reason))
  }

  /** The members whose files the host can fetch. */
  function Providers(peers: map<MemberId, PeerHandle>): set<MemberId> {
    set p | p in peers && peers[p].ticket.Some?
  }

  /** What the host does for itself about a command that the room has carried out. */
  function ServedBy(h: Host, actor: MemberId, command: Command, out: Outcome): HostReceipt
    requires out.Applied?
  {
    Served(out.room, Providers(h.peers), h.files, actor, command, Cut(h.peers, Announced(out)))
  }

  /**
    Telling the others of a command the room has carried out: nobody when serving it has faulted, and those before the
    first dead link when there is one; either way its issuer gets a complaint.
  */
  function Answered(h: Host, actor: MemberId, command: Command, out: Outcome, receipt: HostReceipt): Host
    requires out.Applied?
  {
    if receipt.fault then Host(out.room, Complained(h.peers, actor, command), receipt.files)
    else
      var told := Delivered(h.peers, Made(h.peers, Announced(out)));
      Host(out.room, if Cut(h.peers, Announced(out)) then Complained(told, actor, command) else told, receipt.files)
  }

  function Obeyed(h: Host, actor: MemberId, command: Command): Host {
    var out := Execute(h.room, actor, command);
    if out.Refused? then h.(peers := Complained(h.peers, actor, command))
    else Answered(h, actor, command, out, ServedBy(h, actor, command, out))
  }

  /** What the host makes of a transfer it has prepared, or failed to. */
  function PreparedCommand(input: Input): Command
    requires input.TransferPrepared? || input.PreparationFailed?
  {
    match input
    case TransferPrepared(channel, size, offer) => UpdateChannelTransfer(channel, Some(size), offer)
    case PreparationFailed(channel) => CloseChannel(channel, Some("sender failed to prepare transfer"))
  }

  predicate Overlooked(error: RoomError) {
    error in {RoomError.UnknownChannel, NotChannelOpener}
  }

  /** Only that the channel is gone or somebody else's is overlooked. */
  function Prepared(h: Host, command: Command): Result<Host, LinkError> {
    var out := Execute(h.room, h.room.host, command);
    if out.Refused? then
      if Overlooked(out.error) then Success(h) else Failure(RoomRefused(out.error))
    else if Cut(h.peers, Announced(out)) then Failure(LinkClosed)
    else Success(Host(out.room, Delivered(h.peers, Announced(out)), h.files))
  }

  /** Bytes of a file of the host's own come to their end. */
  function Finished(h: Host, channel: ChannelId, file: ReceivedFile): Host {
    h.(files := HostFinalize(h.room, h.files.(received := h.files.received[channel := file]), channel).files)
  }

  /** A folder of the host's own is complete. */
  function PathKept(h: Host, channel: ChannelId): Host {
    h.(files := HostFiles(h.files.accepted - {channel}, h.files.received - {channel}))
  }

  ghost function Step(h: Host, input: Input): Result<Host, LinkError> {
    match input
    case Connect(name, fingerprint, ticket) => Connected(h, name, fingerprint, ticket)
    case LinkReady(peer) => Success(MadeReady(h, peer))
    case LinkBroken(peer) => Success(Broken(h, peer))
    case Gone(member, reason) => Leaving(h, member, reason)
    case Commanded(actor, command) => Success(Obeyed(h, actor, command))
    case FileArrived(channel, file) => Success(Finished(h, channel, file))
    case PathArrived(channel) => Success(PathKept(h, channel))
    case _ => Prepared(h, PreparedCommand(input))
  }

  /** The operation an input makes on the room. */
  function RoomOp(room: Room, input: Input): Option<Op> {
    match input
    case Connect(name, fingerprint, _) => Some(Join(name, fingerprint))
    case Gone(member, reason) => Some(Leave(member, reason))
    case Commanded(actor, command) => Some(Issue(actor, command))
    case TransferPrepared(_, _, _) => Some(Issue(room.host, PreparedCommand(input)))
    case PreparationFailed(_) => Some(Issue(room.host, PreparedCommand(input)))
    case _ => None
  }

  /** What the room emits at an input. */
  function Emitted(h: Host, input: Input): seq<Routed> {
    var op := RoomOp(h.room, input);
    if op.Some? then Announced(Apply(h.room, op.value)) else []
  }

  /** Serving a command that the room has carried out faults. */
  predicate Faulted(h: Host, input: Input) {
    && input.Commanded?
    && Execute(h.room, input.actor, input.command).Applied?
    && ServedBy(h, input.actor, input.command, Execute(h.room, input.actor, input.command)).fault
  }

  /** An input some of whose emissions are dropped: its serving faults, or somebody's link turns out to be broken. */
  predicate Loses(h: Host, input: Input) {
    Faulted(h, input) || (input.Commanded? && Cut(h.peers, Emitted(h, input)))
  }

  /** How much of what is emitted goes to the links. */
  function Delivering(h: Host, input: Input): (n: nat)
    ensures n <= |Emitted(h, input)|
  {
    if Faulted(h, input) then 0
    else if input.Commanded? then Reach(h.peers, Emitted(h, input))
    else |Emitted(h, input)|
  }

  function HandedOn(h: Host, input: Input): seq<Routed> {
    Emitted(h, input)[..Delivering(h, input)]
  }

  function Dropped(h: Host, input: Input): seq<Routed> {
    Emitted(h, input)[Delivering(h, input)..]
  }

  /** A run, with everything that has been handed on to the links on the way. */
  datatype World = World(host: Host, log: seq<Routed>)

  ghost function Run(room: Room, inputs: seq<Input>): Result<World, LinkError> {
    if inputs == [] then Success(World(Host(room, map[], HostFiles({}, map[])), []))
    else
      var n := |inputs| - 1;
      var before := Run(room, inputs[..n]);
      if before.Failure? then before
      else
        var after := Step(before.value.host, inputs[n]);
        if after.Failure? then Failure(after.error)
        else Success(World(after.value, before.value.log + HandedOn(before.value.host, inputs[n])))
  }

  // ----- what a peer's queues hold -----

  /** The orders in a queue that are about one member. */
  function Orders(queue: seq<AuthorityMessage>, about: MemberId): seq<AuthorityMessage> {
    if queue == [] then []
    else
      var last := queue[|queue| - 1];
      Orders(queue[..|queue| - 1], about) + (if last.PeerConnect? && last.peer.id == about then [last] else [])
  }

  /** `a` joined before `b`. */
  ghost predicate Older(a: MemberId, b: MemberId) {
    exists i: nat, j: nat :: i < j && a == MemberName(i) && b == MemberName(j)
  }

  /** Events that leave a member's knowledge of itself alone. */
  predicate SparesMember(e: Event, p: MemberId) {
    !e.RoomWelcome? && !e.MemberSnapshot? && !e.RoomClosed? && (e.MemberLeft? ==> e.member != p)
  }

  predicate Lists(members: seq<Member>, p: MemberId) {
    exists i :: 0 <= i < |members| && members[i].id == p
  }

  /** The greeting stands at position k; before it nobody is to be dialled, after it somebody other than `p` may be. */
  ghost predicate GreetedAt(queue: seq<AuthorityMessage>, p: MemberId, k: nat) {
    && k + 2 <= |queue|
    && (forall i | 0 <= i < k :: queue[i].PeerConnect? && !queue[i].dial)
    && queue[k].Told? && queue[k].event.RoomWelcome? && queue[k].event.self == p
    && queue[k + 1].Told? && queue[k + 1].event.MemberSnapshot? && Lists(queue[k + 1].event.members, p)
    && (forall i | k + 2 <= i < |queue| ::
          if queue[i].PeerConnect? then queue[i].peer.id != p else SparesMember(queue[i].event, p))
  }

  ghost predicate Greeted(queue: seq<AuthorityMessage>, p: MemberId) {
    exists k: nat :: GreetedAt(queue, p, k)
  }

  /** Only members that have joined so far are introduced. */
  ghost predicate IntroducesBelow(queue: seq<AuthorityMessage>, bound: nat) {
    forall i | 0 <= i < |queue| && queue[i].PeerConnect? :: Indexed(queue[i].peer.id, bound)
  }

  ghost predicate GoodPeer(room: Room, p: MemberId, peer: PeerHandle) {
    && p in room.members && peer.member == room.members[p]
    && peer.ticket.Some?
    && Greeted(peer.authority, p)
    && IntroducesBelow(peer.authority, room.nextIndex)
  }

  ghost predicate GoodPeers(room: Room, peers: map<MemberId, PeerHandle>) {
    && peers.Keys == room.members.Keys - {room.host}
    && forall p | p in peers :: GoodPeer(room, p, peers[p])
  }

  /** Each of two peers has been told about the other exactly once, and only the older one to dial. */
  ghost predicate Introduced(a: PeerHandle, b: PeerHandle)
    requires b.ticket.Some?
  {
    Orders(a.authority, b.member.id) == [Introduction(b, Older(a.member.id, b.member.id))]
  }

  ghost predicate Meshed(peers: map<MemberId, PeerHandle>)
    requires AllTicketed(peers)
  {
    forall a, b | a in peers && b in peers && a != b :: Introduced(peers[a], peers[b])
  }

  /** Nothing emitted for a peer is lost, repeated or reordered, and nothing waits once its link is ready. */
  ghost predicate InOrder(peers: map<MemberId, PeerHandle>, log: seq<Routed>) {
    forall p | p in peers ::
      && peers[p].sent + peers[p].pending == EventsFor(log, p)
      && (peers[p].ready ==> peers[p].pending == [])
  }

  ghost predicate GoodLog(room: Room, log: seq<Routed>) {
    forall i | 0 <= i < |log| ::
      Indexed(log[i].recipient, room.nextIndex) && SparesMember(log[i].event, log[i].recipient)
  }

  ghost predicate Inv(w: World) {
    && Good(w.host.room)
    && GoodPeers(w.host.room, w.host.peers)
    && Meshed(w.host.peers)
    && InOrder(w.host.peers, w.log)
    && GoodLog(w.host.room, w.log)
  }

  lemma Assembled(room: Room, peers: map<MemberId, PeerHandle>, files: HostFiles, log: seq<Routed>)
    requires Good(room) && GoodPeers(room, peers) && Meshed(peers) && InOrder(peers, log) && GoodLog(room, log)
    ensures Inv(World(Host(room, peers, files), log))
  {
  }

  // ----- lists -----

  lemma {:induction false} EventsForAppend(a: seq<Routed>, b: seq<Routed>, p: MemberId)
    ensures EventsFor(a + b, p) == EventsFor(a, p) + EventsFor(b, p)
  {
    if b == [] {
      assert a + b == a;
    } else {
      var n := |b| - 1;
      EventsForAppend(a, b[..n], p);
      assert (a + b)[..|a + b| - 1] == a + b[..n];
    }
  }

  lemma {:induction false} NoEventsFor(routed: seq<Routed>, p: MemberId)
    requires forall i | 0 <= i < |routed| :: routed[i].recipient != p
    ensures EventsFor(routed, p) == []
  {
    if routed != [] {
      NoEventsFor(routed[..|routed| - 1], p);
    }
  }

  lemma {:induction false} OrdersAppend(a: seq<AuthorityMessage>, b: seq<AuthorityMessage>, about: MemberId)
    ensures Orders(a + b, about) == Orders(a, about) + Orders(b, about)
  {
    if b == [] {
      assert a + b == a;
    } else {
      var n := |b| - 1;
      OrdersAppend(a, b[..n], about);
      assert (a + b)[..|a + b| - 1] == a + b[..n];
    }
  }

  lemma {:induction false} NoOrders(queue: seq<AuthorityMessage>, about: MemberId)
    requires forall i | 0 <= i < |queue| && queue[i].PeerConnect? :: queue[i].peer.id != about
    ensures Orders(queue, about) == []
  {
    if queue != [] {
      NoOrders(queue[..|queue| - 1], about);
    }
  }

  lemma {:induction false} OneIntroduction(peers: map<MemberId, PeerHandle>, ids: seq<MemberId>, b: MemberId)
    requires AllTicketed(peers) && forall i | 0 <= i < |ids| :: ids[i] in peers
    requires forall p | p in peers :: peers[p].member.id == p
    requires forall i, j | 0 <= i < j < |ids| :: ids[i] != ids[j]
    ensures Orders(Introductions(peers, ids), b) == if b in ids then [Introduction(peers[b], false)] else []
  {
    if ids != [] {
      var n := |ids| - 1;
      OneIntroduction(peers, ids[..n], b);
      assert Introductions(peers, ids)[..n] == Introductions(peers, ids[..n]);
      assert b in ids <==> b in ids[..n] || b == ids[n];
    }
  }

  lemma NextIsYounger(a: MemberId, n: nat)
    requires Indexed(a, n)
    ensures Older(a, MemberName(n)) && !Older(MemberName(n), a) && a != MemberName(n)
  {
    var i: nat :| i < n && a == MemberName(i);
    if Older(MemberName(n), a) {
      var x: nat, y: nat :| x < y && MemberName(n) == MemberName(x) && a == MemberName(y);
      MemberNameInjective(n, x);
      MemberNameInjective(i, y);
    }
    if a == MemberName(n) {
      MemberNameInjective(i, n);
    }
  }

  lemma OlderIsExclusive(a: MemberId, b: MemberId, bound: nat)
    requires Indexed(a, bound) && Indexed(b, bound) && a != b
    ensures Older(a, b) <==> !Older(b, a)
  {
    var i: nat :| i < bound && a == MemberName(i);
    var j: nat :| j < bound && b == MemberName(j);
    if i < j {
      NextIsYounger(a, j);
    } else {
      NextIsYounger(b, i);
    }
  }

  // ----- what is emitted -----

  lemma CommandEventSpares(room: Room, actor: MemberId, command: Command, p: MemberId)
    requires Execute(room, actor, command).Applied?
    ensures SparesMember(Execute(room, actor, command).event, p)
  {
  }

  lemma EventSpares(room: Room, op: Op, p: MemberId)
    requires Apply(room, op).Applied? && p != Actor(room, op)
    ensures SparesMember(Apply(room, op).event, p)
  {
    if op.Issue? {
      CommandEventSpares(room, op.actor, op.command, p);
    }
  }

  lemma {:induction false} AnnouncedIsGood(room: Room, op: Op)
    requires Good(room) && Apply(room, op).Applied?
    ensures GoodLog(Apply(room, op).room, Announced(Apply(room, op)))
  {
    var out := Apply(room, op);
    ApplyGood(room, op);
    var routed := Announced(out);
    forall i | 0 <= i < |routed| ensures Indexed(routed[i].recipient, out.room.nextIndex)
                                      && SparesMember(routed[i].event, routed[i].recipient) {
      assert routed[i].recipient == Sorted(out.recipients)[i];
      assert routed[i].recipient in out.recipients;
      EventSpares(room, op, routed[i].recipient);
    }
  }

  lemma LogGrows(room: Room, room': Room, log: seq<Routed>, more: seq<Routed>)
    requires GoodLog(room, log) && GoodLog(room', more) && room.nextIndex <= room'.nextIndex
    ensures GoodLog(room', log + more)
  {
    forall i | 0 <= i < |log + more| ensures Indexed((log + more)[i].recipient, room'.nextIndex) {
      if i < |log| { IndexedGrows(log[i].recipient, room.nextIndex, room'.nextIndex); }
    }
  }

  // ----- every step keeps the invariant -----

  lemma DeliveryKeepsOrder(peers: map<MemberId, PeerHandle>, log: seq<Routed>, routed: seq<Routed>)
    requires InOrder(peers, log)
    ensures InOrder(Delivered(peers, routed), log + routed)
  {
    var after := Delivered(peers, routed);
    forall p | p in after ensures after[p].sent + after[p].pending == EventsFor(log + routed, p) {
      EventsForAppend(log, routed, p);
    }
  }

  lemma IntroducesBelowAppend(a: seq<AuthorityMessage>, b: seq<AuthorityMessage>, bound: nat)
    requires IntroducesBelow(a, bound) && IntroducesBelow(b, bound)
    ensures IntroducesBelow(a + b, bound)
  {
  }

  lemma IntroducesBelowGrows(queue: seq<AuthorityMessage>, from: nat, to: nat)
    requires IntroducesBelow(queue, from) && from <= to
    ensures IntroducesBelow(queue, to)
  {
    forall i | 0 <= i < |queue| && queue[i].PeerConnect? ensures Indexed(queue[i].peer.id, to) {
      IndexedGrows(queue[i].peer.id, from, to);
    }
  }

  lemma GoodPeerStays(room: Room, room': Room, p: MemberId, peer: PeerHandle, peer': PeerHandle)
    requires GoodPeer(room, p, peer) && p in room'.members && room'.members[p] == room.members[p]
    requires room.nextIndex <= room'.nextIndex
    requires peer'.member == peer.member && peer'.ticket == peer.ticket && peer'.authority == peer.authority
    ensures GoodPeer(room', p, peer')
  {
    IntroducesBelowGrows(peer.authority, room.nextIndex, room'.nextIndex);
  }

  /** One more message at the end of a greeted peer's authority link: a dial order, or news that spares the peer. */
  lemma GreetedExtends(queue: seq<AuthorityMessage>, p: MemberId, last: AuthorityMessage)
    requires Greeted(queue, p)
    requires if last.PeerConnect? then last.peer.id != p else SparesMember(last.event, p)
    ensures Greeted(queue + [last], p)
  {
    var k: nat :| GreetedAt(queue, p, k);
    assert GreetedAt(queue + [last], p, k);
  }

  lemma DialKeepsGood(room: Room, room': Room, p: MemberId, peer: PeerHandle, newcomer: PeerHandle)
    requires GoodPeer(room, p, peer) && newcomer.ticket.Some?
    requires p in room'.members && room'.members[p] == room.members[p] && room'.nextIndex == room.nextIndex + 1
    requires newcomer.member.id == MemberName(room.nextIndex) && p != newcomer.member.id
    ensures GoodPeer(room', p, peer.(authority := peer.authority + [Introduction(newcomer, true)]))
  {
    var dial := Introduction(newcomer, true);
    GreetedExtends(peer.authority, p, dial);
    IntroducesBelowGrows(peer.authority, room.nextIndex, room'.nextIndex);
    assert Indexed(newcomer.member.id, room'.nextIndex);
    IntroducesBelowAppend(peer.authority, [dial], room'.nextIndex);
  }

  lemma SnapshotLists(members: map<MemberId, Member>, p: MemberId)
    requires p in members && members[p].id == p
    ensures Lists(Snapshot(members), p)
  {
    var ids := Sorted(members.Keys);
    var at :| 0 <= at < |ids| && ids[at] == p;
    assert Snapshot(members)[at].id == p;
  }

  lemma NewcomerIsGreeted(intros: seq<AuthorityMessage>, room: Room, p: MemberId)
    requires forall i | 0 <= i < |intros| :: intros[i].PeerConnect? && !intros[i].dial
    requires p in room.members && room.members[p].id == p
    ensures Greeted(intros + GreetingMessages(room, p), p)
  {
    SnapshotLists(room.members, p);
    assert GreetedAt(intros + GreetingMessages(room, p), p, |intros|);
  }

  lemma {:induction false} IntroductionsIndexed(room: Room, peers: map<MemberId, PeerHandle>, ids: seq<MemberId>,
                                                i: nat)
    requires Good(room) && GoodPeers(room, peers)
    requires i < |ids| && forall j | 0 <= j < |ids| :: ids[j] in peers
    ensures var intro := Introductions(peers, ids)[i];
            intro.PeerConnect? && !intro.dial && Indexed(intro.peer.id, room.nextIndex + 1)
  {
    assert peers[ids[i]].member == room.members[ids[i]];
    IndexedGrows(ids[i], room.nextIndex, room.nextIndex + 1);
  }

  lemma {:induction false} IntroductionsGood(room: Room, peers: map<MemberId, PeerHandle>, ids: seq<MemberId>)
    requires Good(room) && GoodPeers(room, peers) && forall j | 0 <= j < |ids| :: ids[j] in peers
    ensures var intros := Introductions(peers, ids);
            && IntroducesBelow(intros, room.nextIndex + 1)
            && forall i | 0 <= i < |intros| :: intros[i].PeerConnect? && !intros[i].dial
  {
    var intros := Introductions(peers, ids);
    forall i | 0 <= i < |intros|
      ensures intros[i].PeerConnect? && !intros[i].dial && Indexed(intros[i].peer.id, room.nextIndex + 1) {
      IntroductionsIndexed(room, peers, ids, i);
    }
  }

  lemma NewcomerIsGood(room': Room, newcomer: PeerHandle, intros: seq<AuthorityMessage>)
    requires newcomer.ticket.Some?
    requires var id := newcomer.member.id; id in room'.members && room'.members[id] == newcomer.member
    requires IntroducesBelow(intros, room'.nextIndex)
    requires forall i | 0 <= i < |intros| :: intros[i].PeerConnect? && !intros[i].dial
    ensures var id := newcomer.member.id;
            GoodPeer(room', id, newcomer.(authority := intros + GreetingMessages(room', id)))
  {
    NewcomerIsGreeted(intros, room', newcomer.member.id);
    IntroducesBelowAppend(intros, GreetingMessages(room', newcomer.member.id), room'.nextIndex);
  }

  lemma DeliveryKeepsGood(room: Room, peers: map<MemberId, PeerHandle>, routed: seq<Routed>)
    requires GoodPeers(room, peers)
    ensures GoodPeers(room, Delivered(peers, routed))
  {
    var after := Delivered(peers, routed);
    forall p | p in after ensures GoodPeer(room, p, after[p]) {
      GoodPeerStays(room, room, p, peers[p], after[p]);
    }
  }

  lemma DeliveryKeepsMesh(peers: map<MemberId, PeerHandle>, routed: seq<Routed>)
    requires AllTicketed(peers) && Meshed(peers)
    ensures AllTicketed(Delivered(peers, routed)) && Meshed(Delivered(peers, routed))
  {
    var after := Delivered(peers, routed);
    forall a, b | a in after && b in after && a != b ensures Introduced(after[a], after[b]) {
      assert Introduced(peers[a], peers[b]);
    }
  }

  // ----- connecting -----

  /** A room one member larger, and that member's handle. */
  ghost predicate Admits(room: Room, room': Room, newcomer: PeerHandle) {
    && newcomer.ticket.Some?
    && newcomer.member.id == MemberName(room.nextIndex)
    && room' == room.(members := room.members[newcomer.member.id := newcomer.member], nextIndex := room.nextIndex + 1)
  }

  lemma AdmittedOldIsGood(room: Room, room': Room, peers: map<MemberId, PeerHandle>, newcomer: PeerHandle, p: MemberId)
    requires AllTicketed(peers) && p in peers && GoodPeer(room, p, peers[p])
    requires Admits(room, room', newcomer) && p != newcomer.member.id
    ensures GoodPeer(room', p, Admitted(peers, newcomer, room')[p])
  {
    DialKeepsGood(room, room', p, peers[p], newcomer);
  }

  lemma AdmittedNew(peers: map<MemberId, PeerHandle>, newcomer: PeerHandle, room: Room)
    requires AllTicketed(peers) && newcomer.ticket.Some?
    ensures var intros := Introductions(peers, Sorted(peers.Keys));
            Admitted(peers, newcomer, room)[newcomer.member.id]
              == newcomer.(authority := intros + GreetingMessages(room, newcomer.member.id))
  {
  }

  lemma {:induction false} NewcomerWithIntroductions(room: Room, room': Room, peers: map<MemberId, PeerHandle>,
                                                     newcomer: PeerHandle, intros: seq<AuthorityMessage>)
    requires Good(room) && GoodPeers(room, peers) && Admits(room, room', newcomer) && AllTicketed(peers)
    requires intros == Introductions(peers, Sorted(peers.Keys))
    ensures var id := newcomer.member.id;
            GoodPeer(room', id, newcomer.(authority := intros + GreetingMessages(room', id)))
  {
    IntroductionsGood(room, peers, Sorted(peers.Keys));
    NewcomerIsGood(room', newcomer, intros);
  }

  lemma {:induction false} AdmittedNewIsGood(room: Room, room': Room, peers: map<MemberId, PeerHandle>,
                                             newcomer: PeerHandle)
    requires Good(room) && GoodPeers(room, peers) && Admits(room, room', newcomer) && AllTicketed(peers)
    ensures GoodPeer(room', newcomer.member.id, Admitted(peers, newcomer, room')[newcomer.member.id])
  {
    NewcomerWithIntroductions(room, room', peers, newcomer, Introductions(peers, Sorted(peers.Keys)));
    AdmittedNew(peers, newcomer, room');
  }

  lemma AdmittedKeys(members: map<MemberId, Member>, host: MemberId, id: MemberId, member: Member)
    requires id != host
    ensures members[id := member].Keys - {host} == members.Keys - {host} + {id}
  {
    assert members[id := member].Keys == members.Keys + {id};
  }

  lemma {:induction false} AdmittedAreGood(room: Room, room': Room, peers: map<MemberId, PeerHandle>,
                                           newcomer: PeerHandle)
    requires GoodPeers(room, peers) && Admits(room, room', newcomer)
    requires newcomer.member.id !in room.members && room.host in room.members
    requires GoodPeer(room', newcomer.member.id, Admitted(peers, newcomer, room')[newcomer.member.id])
    ensures GoodPeers(room', Admitted(peers, newcomer, room'))
  {
    var after := Admitted(peers, newcomer, room');
    AdmittedKeys(room.members, room.host, newcomer.member.id, newcomer.member);
    forall p | p in peers ensures GoodPeer(room', p, after[p]) {
      AdmittedOldIsGood(room, room', peers, newcomer, p);
    }
  }

  lemma OldPairStays(a: PeerHandle, b: PeerHandle, newcomer: PeerHandle)
    requires b.ticket.Some? && newcomer.ticket.Some? && Introduced(a, b) && b.member.id != newcomer.member.id
    ensures var dial := [Introduction(newcomer, true)];
            Introduced(a.(authority := a.authority + dial), b.(authority := b.authority + dial))
  {
    OrdersAppend(a.authority, [Introduction(newcomer, true)], b.member.id);
  }

  lemma OldMeetsNew(a: PeerHandle, newcomer: PeerHandle, n: nat)
    requires newcomer.ticket.Some? && newcomer.member.id == MemberName(n)
    requires Indexed(a.member.id, n) && IntroducesBelow(a.authority, n)
    ensures Introduced(a.(authority := a.authority + [Introduction(newcomer, true)]), newcomer)
  {
    var dial := [Introduction(newcomer, true)];
    NextIsYounger(a.member.id, n);
    forall i | 0 <= i < |a.authority| && a.authority[i].PeerConnect?
      ensures a.authority[i].peer.id != newcomer.member.id {
      NextIsYounger(a.authority[i].peer.id, n);
    }
    NoOrders(a.authority, newcomer.member.id);
    OrdersAppend(a.authority, dial, newcomer.member.id);
    assert Orders(dial, newcomer.member.id) == Orders([], newcomer.member.id) + dial;
  }

  lemma {:induction false} NewcomersOrders(peers: map<MemberId, PeerHandle>, ids: seq<MemberId>,
                                           greeting: seq<AuthorityMessage>, b: MemberId)
    requires AllTicketed(peers) && (forall i | 0 <= i < |ids| :: ids[i] in peers) && b in ids
    requires forall p | p in peers :: peers[p].member.id == p
    requires forall i, j | 0 <= i < j < |ids| :: ids[i] != ids[j]
    requires forall i | 0 <= i < |greeting| :: greeting[i].Told?
    ensures Orders(Introductions(peers, ids) + greeting, b) == [Introduction(peers[b], false)]
  {
    OneIntroduction(peers, ids, b);
    NoOrders(greeting, b);
    OrdersAppend(Introductions(peers, ids), greeting, b);
  }

  lemma NewMeetsOld(peers: map<MemberId, PeerHandle>, newcomer: PeerHandle, room: Room, n: nat, b: MemberId)
    requires AllTicketed(peers) && newcomer.ticket.Some? && newcomer.member.id == MemberName(n)
    requires forall p | p in peers :: peers[p].member.id == p
    requires b in peers && Indexed(b, n)
    ensures Introduced(Admitted(peers, newcomer, room)[newcomer.member.id], peers[b])
  {
    var ids := Sorted(peers.Keys);
    SortedAscends(peers.Keys);
    AscendingDistinct(ids);
    NewcomersOrders(peers, ids, GreetingMessages(room, newcomer.member.id), b);
    NextIsYounger(b, n);
  }

  /** The facts about a set of peers that the introductions rest on. */
  ghost predicate Numbered(peers: map<MemberId, PeerHandle>, n: nat) {
    forall p | p in peers :: peers[p].member.id == p && Indexed(p, n) && IntroducesBelow(peers[p].authority, n)
  }

  lemma {:induction false} AdmittedPairMeets(peers: map<MemberId, PeerHandle>, newcomer: PeerHandle, room: Room, n: nat,
                          a: MemberId, b: MemberId)
    requires AllTicketed(peers) && Meshed(peers) && Numbered(peers, n)
    requires newcomer.ticket.Some? && newcomer.member.id == MemberName(n)
    requires var after := Admitted(peers, newcomer, room); a in after && b in after && a != b
    ensures var after := Admitted(peers, newcomer, room); Introduced(after[a], after[b])
  {
    if a == newcomer.member.id {
      NewMeetsOld(peers, newcomer, room, n, b);
    } else if b == newcomer.member.id {
      OldMeetsNew(peers[a], newcomer, n);
    } else {
      assert Introduced(peers[a], peers[b]);
      OldPairStays(peers[a], peers[b], newcomer);
    }
  }

  lemma {:induction false} AdmittedAreMeshed(peers: map<MemberId, PeerHandle>, newcomer: PeerHandle, room: Room, n: nat)
    requires AllTicketed(peers) && Meshed(peers) && Numbered(peers, n)
    requires newcomer.ticket.Some? && newcomer.member.id == MemberName(n)
    ensures Meshed(Admitted(peers, newcomer, room))
  {
    var after := Admitted(peers, newcomer, room);
    forall a, b | a in after && b in after && a != b ensures Introduced(after[a], after[b]) {
      AdmittedPairMeets(peers, newcomer, room, n, a, b);
    }
  }

  lemma GoodPeersNumbered(room: Room, peers: map<MemberId, PeerHandle>)
    requires Good(room) && GoodPeers(room, peers)
    ensures AllTicketed(peers) && Numbered(peers, room.nextIndex)
  {
    forall p | p in peers ensures peers[p].member.id == p {
      assert GoodPeer(room, p, peers[p]);
    }
  }

  lemma AdmittedAreInOrder(room: Room, room': Room, peers: map<MemberId, PeerHandle>, newcomer: PeerHandle,
                           log: seq<Routed>)
    requires InOrder(peers, log) && GoodLog(room, log) && AllTicketed(peers) && Admits(room, room', newcomer)
    requires newcomer.sent == [] && newcomer.pending == []
    ensures InOrder(Admitted(peers, newcomer, room'), log)
  {
    forall i | 0 <= i < |log| ensures log[i].recipient != newcomer.member.id {
      NextIsYounger(log[i].recipient, room.nextIndex);
    }
    NoEventsFor(log, newcomer.member.id);
  }

  lemma {:induction false} AdmissionKeepsInv(w: World, newcomer: PeerHandle, out: Outcome)
    requires Inv(w) && out.Applied? && Admits(w.host.room, out.room, newcomer)
    requires newcomer.sent == [] && newcomer.pending == []
    requires Good(out.room) && GoodLog(out.room, Announced(out))
    ensures var peers := Delivered(Admitted(w.host.peers, newcomer, out.room), Announced(out));
            Inv(World(Host(out.room, peers, w.host.files), w.log + Announced(out)))
  {
    var routed := Announced(out);
    LogGrows(w.host.room, out.room, w.log, routed);
    ConnectKeepsPeers(w, newcomer, out.room, routed);
    Assembled(out.room, Delivered(Admitted(w.host.peers, newcomer, out.room), routed), w.host.files, w.log + routed);
  }

  lemma ConnectedShape(h: Host, name: string, fingerprint: Option<string>, ticket: Option<string>)
    requires Connected(h, name, fingerprint, ticket).Success?
    ensures var newcomer, out := Newcomer(h, name, fingerprint, ticket), JoinRoom(h.room, name, fingerprint);
            && out.Applied? && AllTicketed(h.peers) && Admits(h.room, out.room, newcomer)
            && Connected(h, name, fingerprint, ticket).value
                 == Host(out.room, Delivered(Admitted(h.peers, newcomer, out.room), Announced(out)), h.files)
  {
  }

  lemma {:induction false} ConnectKeepsInv(w: World, name: string, fingerprint: Option<string>, ticket: Option<string>)
    requires Inv(w) && Connected(w.host, name, fingerprint, ticket).Success?
    ensures Inv(World(Connected(w.host, name, fingerprint, ticket).value,
                      w.log + Announced(JoinRoom(w.host.room, name, fingerprint))))
  {
    ConnectedShape(w.host, name, fingerprint, ticket);
    JoinGood(w.host.room, name, fingerprint);
    AnnouncedIsGood(w.host.room, Join(name, fingerprint));
    AdmissionKeepsInv(w, Newcomer(w.host, name, fingerprint, ticket), JoinRoom(w.host.room, name, fingerprint));
  }

  lemma {:induction false} ConnectKeepsPeers(w: World, newcomer: PeerHandle, room': Room, routed: seq<Routed>)
    requires Inv(w) && Admits(w.host.room, room', newcomer) && newcomer.sent == [] && newcomer.pending == []
    ensures var peers := Delivered(Admitted(w.host.peers, newcomer, room'), routed);
            GoodPeers(room', peers) && Meshed(peers) && InOrder(peers, w.log + routed)
  {
    var room := w.host.room;
    var admitted := Admitted(w.host.peers, newcomer, room');
    FreshId(room);
    GoodPeersNumbered(room, w.host.peers);
    AdmittedNewIsGood(room, room', w.host.peers, newcomer);
    AdmittedAreGood(room, room', w.host.peers, newcomer);
    DeliveryKeepsGood(room', admitted, routed);
    AdmittedAreMeshed(w.host.peers, newcomer, room', room.nextIndex);
    DeliveryKeepsMesh(admitted, routed);
    AdmittedAreInOrder(room, room', w.host.peers, newcomer, w.log);
    DeliveryKeepsOrder(admitted, w.log, routed);
  }

  // ----- the other steps -----

  /** A handle on whose links nothing has been put or lost. */
  ghost predicate SameQueues(peer: PeerHandle, peer': PeerHandle) {
    && peer'.member == peer.member && peer'.ticket == peer.ticket && peer'.authority == peer.authority
    && peer'.sent + peer'.pending == peer.sent + peer.pending
    && (peer'.ready ==> peer'.pending == [])
  }

  lemma HandleKeepsGood(room: Room, peers: map<MemberId, PeerHandle>, p: MemberId, peer': PeerHandle)
    requires GoodPeers(room, peers) && p in peers && SameQueues(peers[p], peer')
    ensures GoodPeers(room, peers[p := peer'])
  {
    GoodPeerStays(room, room, p, peers[p], peer');
    assert peers[p := peer'].Keys == peers.Keys;
  }

  lemma HandleKeepsMesh(peers: map<MemberId, PeerHandle>, p: MemberId, peer': PeerHandle)
    requires AllTicketed(peers) && Meshed(peers) && p in peers && SameQueues(peers[p], peer')
    ensures var after := peers[p := peer']; AllTicketed(after) && Meshed(after)
  {
    var after := peers[p := peer'];
    forall a, b | a in after && b in after && a != b ensures Introduced(after[a], after[b]) {
      assert Introduced(peers[a], peers[b]);
    }
  }

  lemma {:induction false} HandleKeepsInv(w: World, p: MemberId, peer': PeerHandle)
    requires Inv(w) && p in w.host.peers && SameQueues(w.host.peers[p], peer')
    ensures Inv(World(w.host.(peers := w.host.peers[p := peer']), w.log))
  {
    HandleKeepsGood(w.host.room, w.host.peers, p, peer');
    HandleKeepsMesh(w.host.peers, p, peer');
    Assembled(w.host.room, w.host.peers[p := peer'], w.host.files, w.log);
  }

  lemma DepartureKeepsPeers(room: Room, room': Room, peers: map<MemberId, PeerHandle>, member: MemberId)
    requires GoodPeers(room, peers) && member != room.host
    requires room'.members == room.members - {member} && room'.host == room.host && room'.nextIndex == room.nextIndex
    ensures GoodPeers(room', peers - {member})
  {
    forall p | p in peers - {member} ensures GoodPeer(room', p, peers[p]) {
      GoodPeerStays(room, room', p, peers[p], peers[p]);
    }
  }

  lemma DepartureKeepsMesh(peers: map<MemberId, PeerHandle>, member: MemberId)
    requires AllTicketed(peers) && Meshed(peers)
    ensures AllTicketed(peers - {member}) && Meshed(peers - {member})
  {
    forall a, b | a in peers - {member} && b in peers - {member} && a != b ensures Introduced(peers[a], peers[b]) {
    }
  }

  lemma {:induction false} DepartureDelivered(w: World, room': Room, member: MemberId, routed: seq<Routed>)
    requires Inv(w) && GoodPeers(room', w.host.peers - {member})
    ensures var peers := Delivered(w.host.peers - {member}, routed);
            GoodPeers(room', peers) && Meshed(peers) && InOrder(peers, w.log + routed)
  {
    var rest := w.host.peers - {member};
    DepartureKeepsMesh(w.host.peers, member);
    DeliveryKeepsMesh(rest, routed);
    DeliveryKeepsOrder(rest, w.log, routed);
    DeliveryKeepsGood(room', rest, routed);
  }

  lemma {:induction false} LeftKeepsInv(w: World, member: MemberId, reason: Option<string>)
    requires Inv(w) && LeaveRoom(w.host.room, member, reason).Applied?
    ensures var out := LeaveRoom(w.host.room, member, reason);
            Inv(World(Host(out.room, Delivered(w.host.peers - {member}, Announced(out)), w.host.files),
                      w.log + Announced(out)))
  {
    var room := w.host.room;
    var out := LeaveRoom(room, member, reason);
    var routed := Announced(out);
    LeaveGood(room, member, reason);
    AnnouncedIsGood(room, Leave(member, reason));
    LogGrows(room, out.room, w.log, routed);
    DepartureKeepsPeers(room, out.room, w.host.peers, member);
    DepartureDelivered(w, out.room, member, routed);
    Assembled(out.room, Delivered(w.host.peers - {member}, routed), w.host.files, w.log + routed);
  }

  lemma {:induction false} DepartedKeepsInv(w: World, member: MemberId, reason: Option<string>)
    requires Inv(w)
    ensures Inv(World(Departed(w.host, member, reason), w.log + Announced(LeaveRoom(w.host.room, member, reason))))
  {
    if LeaveRoom(w.host.room, member, reason).Applied? {
      LeftKeepsInv(w, member, reason);
    } else {
      assert w.host.peers - {member} == w.host.peers;
      assert w.log + [] == w.log;
      DepartureDelivered(w, w.host.room, member, []);
      Assembled(w.host.room, Delivered(w.host.peers, []), w.host.files, w.log);
    }
  }

  lemma SameMembersKeepPeers(room: Room, room': Room, peers: map<MemberId, PeerHandle>)
    requires GoodPeers(room, peers)
    requires room'.members == room.members && room'.host == room.host && room'.nextIndex == room.nextIndex
    ensures GoodPeers(room', peers)
  {
    forall p | p in peers ensures GoodPeer(room', p, peers[p]) {
      GoodPeerStays(room, room', p, peers[p], peers[p]);
    }
  }

  /** The room after a command: as it was, but for its channels. */
  ghost predicate SameMembers(room: Room, room': Room) {
    Good(room') && room'.members == room.members && room'.host == room.host && room'.nextIndex == room.nextIndex
  }

  lemma {:induction false} DeliveredKeepsInv(w: World, room': Room, routed: seq<Routed>, files: HostFiles)
    requires Inv(w) && SameMembers(w.host.room, room') && GoodLog(room', routed)
    ensures Inv(World(Host(room', Delivered(w.host.peers, routed), files), w.log + routed))
  {
    LogGrows(w.host.room, room', w.log, routed);
    SameMembersKeepPeers(w.host.room, room', w.host.peers);
    DeliveryKeepsGood(room', w.host.peers, routed);
    DeliveryKeepsMesh(w.host.peers, routed);
    DeliveryKeepsOrder(w.host.peers, w.log, routed);
    Assembled(room', Delivered(w.host.peers, routed), files, w.log + routed);
  }

  lemma {:induction false} RefusedKeepsInv(w: World, actor: MemberId, command: Command)
    requires Inv(w) && Execute(w.host.room, actor, command).Refused?
    ensures Inv(World(Obeyed(w.host, actor, command), w.log))
  {
    ComplaintKeepsInv(w, w.host.room, w.host.files, actor, command);
  }

  lemma CommandKeepsMembers(room: Room, actor: MemberId, command: Command)
    requires Good(room) && Execute(room, actor, command).Applied?
    ensures SameMembers(room, Execute(room, actor, command).room)
  {
    ApplyGood(room, Issue(actor, command));
    ExecuteKeepsMembers(room, actor, command);
  }

  lemma {:induction false} FaultKeepsInv(w: World, actor: MemberId, command: Command)
    requires Inv(w) && Faulted(w.host, Commanded(actor, command))
    ensures Inv(World(Obeyed(w.host, actor, command), w.log))
  {
    var out := Execute(w.host.room, actor, command);
    CommandKeepsMembers(w.host.room, actor, command);
    ComplaintKeepsInv(w, out.room, ServedBy(w.host, actor, command, out).files, actor, command);
  }

  /** What is delivered of a command's announcement, and the complaint when that is not all. */
  lemma {:induction false} ToldKeepsInv(w: World, room': Room, routed: seq<Routed>, files: HostFiles, actor: MemberId,
                                        command: Command)
    requires Inv(w) && SameMembers(w.host.room, room') && GoodLog(room', routed)
    ensures Inv(World(Host(room', Delivered(w.host.peers, routed), files), w.log + routed))
    ensures Inv(World(Host(room', Complained(Delivered(w.host.peers, routed), actor, command), files), w.log + routed))
  {
    DeliveredKeepsInv(w, room', routed, files);
    ComplaintKeepsInv(World(Host(room', Delivered(w.host.peers, routed), files), w.log + routed), room', files, actor,
                      command);
  }

  lemma MadeIsGood(room: Room, peers: map<MemberId, PeerHandle>, routed: seq<Routed>)
    requires GoodLog(room, routed)
    ensures GoodLog(room, Made(peers, routed))
  {
  }

  lemma {:induction false} AnsweredKeepsInv(w: World, actor: MemberId, command: Command, out: Outcome,
                                            receipt: HostReceipt)
    requires Inv(w) && out.Applied? && SameMembers(w.host.room, out.room) && GoodLog(out.room, Announced(out))
    requires !receipt.fault
    ensures Inv(World(Answered(w.host, actor, command, out, receipt), w.log + Made(w.host.peers, Announced(out))))
  {
    MadeIsGood(out.room, w.host.peers, Announced(out));
    ToldKeepsInv(w, out.room, Made(w.host.peers, Announced(out)), receipt.files, actor, command);
  }

  lemma EmittedByCommand(h: Host, actor: MemberId, command: Command)
    ensures Emitted(h, Commanded(actor, command)) == Announced(Execute(h.room, actor, command))
  {
    assert RoomOp(h.room, Commanded(actor, command)) == Some(Issue(actor, command));
  }

  lemma {:induction false} UnfaultedIsMade(h: Host, actor: MemberId, command: Command)
    requires Execute(h.room, actor, command).Applied? && !Faulted(h, Commanded(actor, command))
    ensures HandedOn(h, Commanded(actor, command)) == Made(h.peers, Announced(Execute(h.room, actor, command)))
  {
    EmittedByCommand(h, actor, command);
  }

  lemma ObeyedIsAnswered(h: Host, actor: MemberId, command: Command)
    requires Execute(h.room, actor, command).Applied?
    ensures var out := Execute(h.room, actor, command);
            && Obeyed(h, actor, command) == Answered(h, actor, command, out, ServedBy(h, actor, command, out))
            && (Faulted(h, Commanded(actor, command)) <==> ServedBy(h, actor, command, out).fault)
  {
  }

  lemma {:induction false} ServedKeepsInv(w: World, actor: MemberId, command: Command)
    requires Inv(w) && Execute(w.host.room, actor, command).Applied? && !Faulted(w.host, Commanded(actor, command))
    ensures Inv(World(Obeyed(w.host, actor, command), w.log + HandedOn(w.host, Commanded(actor, command))))
  {
    var out := Execute(w.host.room, actor, command);
    ObeyedIsAnswered(w.host, actor, command);
    UnfaultedIsMade(w.host, actor, command);
    CommandKeepsMembers(w.host.room, actor, command);
    CommandLogIsGood(w.host.room, actor, command);
    AnsweredKeepsInv(w, actor, command, out, ServedBy(w.host, actor, command, out));
  }

  lemma CommandLogIsGood(room: Room, actor: MemberId, command: Command)
    requires Good(room) && Execute(room, actor, command).Applied?
    ensures GoodLog(Execute(room, actor, command).room, Announced(Execute(room, actor, command)))
  {
    AnnouncedIsGood(room, Issue(actor, command));
  }

  lemma {:induction false} NothingHandedOn(h: Host, actor: MemberId, command: Command)
    requires Execute(h.room, actor, command).Refused? || Faulted(h, Commanded(actor, command))
    ensures HandedOn(h, Commanded(actor, command)) == []
  {
    if Faulted(h, Commanded(actor, command)) {
      assert Delivering(h, Commanded(actor, command)) == 0;
    } else {
      EmittedByCommand(h, actor, command);
    }
  }

  lemma {:induction false} ObeyedKeepsInv(w: World, actor: MemberId, command: Command)
    requires Inv(w)
    ensures Inv(World(Obeyed(w.host, actor, command), w.log + HandedOn(w.host, Commanded(actor, command))))
  {
    if Execute(w.host.room, actor, command).Applied? && !Faulted(w.host, Commanded(actor, command)) {
      ServedKeepsInv(w, actor, command);
    } else {
      NothingHandedOn(w.host, actor, command);
      assert w.log + [] == w.log;
      if Execute(w.host.room, actor, command).Refused? {
        RefusedKeepsInv(w, actor, command);
      } else {
        FaultKeepsInv(w, actor, command);
      }
    }
  }

  lemma {:induction false} PreparedKeepsInv(w: World, command: Command)
    requires Inv(w) && Prepared(w.host, command).Success?
    ensures Inv(World(Prepared(w.host, command).value,
                      w.log + Announced(Execute(w.host.room, w.host.room.host, command))))
  {
    var out := Execute(w.host.room, w.host.room.host, command);
    if out.Applied? {
      CommandKeepsMembers(w.host.room, w.host.room.host, command);
      AnnouncedIsGood(w.host.room, Issue(w.host.room.host, command));
      DeliveredKeepsInv(w, out.room, Announced(out), w.host.files);
    } else {
      assert w.log + [] == w.log;
    }
  }

  lemma ComplaintKeepsGood(room: Room, peers: map<MemberId, PeerHandle>, actor: MemberId, command: Command)
    requires GoodPeers(room, peers) && actor in peers
    ensures GoodPeers(room, Complained(peers, actor, command))
  {
    var complaint := Told(CommandFailed(CommandChannel(command)));
    GreetedExtends(peers[actor].authority, actor, complaint);
    IntroducesBelowAppend(peers[actor].authority, [complaint], room.nextIndex);
    assert Complained(peers, actor, command).Keys == peers.Keys;
  }

  lemma ComplaintKeepsMesh(peers: map<MemberId, PeerHandle>, actor: MemberId, command: Command)
    requires AllTicketed(peers) && Meshed(peers) && actor in peers
    ensures var after := Complained(peers, actor, command); AllTicketed(after) && Meshed(after)
  {
    var complaint := [Told(CommandFailed(CommandChannel(command)))];
    var after := Complained(peers, actor, command);
    forall a, b | a in after && b in after && a != b ensures Introduced(after[a], after[b]) {
      assert Introduced(peers[a], peers[b]);
      OrdersAppend(peers[a].authority, complaint, peers[b].member.id);
    }
  }

  lemma ComplaintKeepsPeers(room: Room, peers: map<MemberId, PeerHandle>, log: seq<Routed>, actor: MemberId,
                            command: Command)
    requires GoodPeers(room, peers) && Meshed(peers) && InOrder(peers, log)
    ensures var after := Complained(peers, actor, command);
            GoodPeers(room, after) && Meshed(after) && InOrder(after, log)
  {
    if actor in peers {
      ComplaintKeepsGood(room, peers, actor, command);
      ComplaintKeepsMesh(peers, actor, command);
    }
  }

  lemma {:induction false} ComplaintKeepsInv(w: World, room': Room, files: HostFiles, actor: MemberId, command: Command)
    requires Inv(w) && SameMembers(w.host.room, room')
    ensures Inv(World(Host(room', Complained(w.host.peers, actor, command), files), w.log))
  {
    SameMembersKeepPeers(w.host.room, room', w.host.peers);
    ComplaintKeepsPeers(room', w.host.peers, w.log, actor, command);
    Assembled(room', Complained(w.host.peers, actor, command), files, w.log);
  }

  lemma FilesKeepInv(w: World, files: HostFiles)
    requires Inv(w)
    ensures Inv(World(w.host.(files := files), w.log + []))
  {
    assert w.log + [] == w.log;
    Assembled(w.host.room, w.host.peers, files, w.log);
  }

  lemma LinkKeepsInv(w: World, p: MemberId)
    requires Inv(w)
    ensures Inv(World(MadeReady(w.host, p), w.log + [])) && Inv(World(Broken(w.host, p), w.log + []))
  {
    assert w.log + [] == w.log;
    if p in w.host.peers {
      HandleKeepsInv(w, p, Flushed(w.host.peers[p]));
      HandleKeepsInv(w, p, w.host.peers[p].(broken := true));
    }
  }

  /** Inputs about which the room is not asked. */
  predicate Quiet(input: Input) {
    input.LinkReady? || input.LinkBroken? || input.FileArrived? || input.PathArrived?
  }

  lemma {:induction false} QuietKeepsInv(w: World, input: Input)
    requires Inv(w) && Quiet(input)
    ensures Step(w.host, input).Success? && Inv(World(Step(w.host, input).value, w.log + []))
  {
    match input
    case LinkReady(p) => LinkKeepsInv(w, p);
    case LinkBroken(p) => LinkKeepsInv(w, p);
    case FileArrived(channel, file) => FilesKeepInv(w, Finished(w.host, channel, file).files);
    case PathArrived(channel) => FilesKeepInv(w, PathKept(w.host, channel).files);
  }

  /** At these inputs everything emitted is delivered, or the session ends. */
  predicate AllOrNothing(input: Input) {
    input.Connect? || input.Gone? || input.TransferPrepared? || input.PreparationFailed?
  }

  lemma {:induction false} ConnectShape(h: Host, input: Input)
    requires input.Connect?
    ensures Step(h, input) == Connected(h, input.name, input.fingerprint, input.ticket)
    ensures Emitted(h, input) == Announced(JoinRoom(h.room, input.name, input.fingerprint))
  {
  }

  lemma {:induction false} GoneShape(h: Host, input: Input)
    requires input.Gone? && Step(h, input).Success?
    ensures Step(h, input) == Success(Departed(h, input.member, input.reason))
    ensures Emitted(h, input) == Announced(LeaveRoom(h.room, input.member, input.reason))
  {
  }

  lemma {:induction false} PreparedShape(h: Host, input: Input)
    requires input.TransferPrepared? || input.PreparationFailed?
    ensures Step(h, input) == Prepared(h, PreparedCommand(input))
    ensures Emitted(h, input) == Announced(Execute(h.room, h.room.host, PreparedCommand(input)))
  {
  }

  lemma {:induction false} AllOrNothingKeepsInv(w: World, input: Input)
    requires Inv(w) && AllOrNothing(input) && Step(w.host, input).Success?
    ensures Inv(World(Step(w.host, input).value, w.log + Emitted(w.host, input)))
  {
    if input.Connect? {
      ConnectShape(w.host, input);
      ConnectKeepsInv(w, input.name, input.fingerprint, input.ticket);
    } else if input.Gone? {
      GoneShape(w.host, input);
      DepartedKeepsInv(w, input.member, input.reason);
    } else {
      PreparedShape(w.host, input);
      PreparedKeepsInv(w, PreparedCommand(input));
    }
  }

  lemma HandedOnUnlessCommanded(h: Host, input: Input)
    requires !input.Commanded?
    ensures HandedOn(h, input) == Emitted(h, input)
    ensures Quiet(input) ==> Emitted(h, input) == []
  {
  }

  lemma {:induction false} StepKeepsInv(w: World, input: Input)
    requires Inv(w) && Step(w.host, input).Success?
    ensures Inv(World(Step(w.host, input).value, w.log + HandedOn(w.host, input)))
  {
    if input.Commanded? {
      ObeyedKeepsInv(w, input.actor, input.command);
    } else {
      HandedOnUnlessCommanded(w.host, input);
      if Quiet(input) {
        QuietKeepsInv(w, input);
      } else {
        AllOrNothingKeepsInv(w, input);
      }
    }
  }
}
