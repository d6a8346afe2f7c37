/**
  The host's room as a value: what each operation does to members and channels and whom it notifies.
  `RoomEngine` is the mutable object proved against it.
*/
module RoomAuthority {
  import opened Wrappers
  import opened Text
  import opened Ordering
  import opened RoomProtocol

  datatype Channel = Channel(
    opener: MemberId, kind: ChannelKind, participants: set<MemberId>, name: Option<string>,
    size: Option<nat>, mime: Option<string>, transfer: Option<TransferOffer>)

  datatype Room = Room(
    id: string, host: MemberId, members: map<MemberId, Member>,
    channels: map<ChannelId, Channel>, nextIndex: nat)

  datatype Routed = Routed(recipient: MemberId, event: Event)

  datatype RoomError =
    | Protocol(error: ProtocolError)
    | UnknownMember | UnknownChannel | ChannelAlreadyOpen | MemberNotInChannel
    | NotChannelOpener | ChannelDataUnsupported | ChannelTransferUpdateUnsupported | HostCannotLeaveRoom

  /** A host operation: somebody connects, somebody leaves, or a member issues a command. */
  datatype Op =
    | Join(name: string, fingerprint: Option<string>)
    | Leave(member: MemberId, reason: Option<string>)
    | Issue(actor: MemberId, command: Command)

  /** An accepted operation changes the room and announces one event to a set of members. */
  datatype Outcome =
    | Applied(room: Room, recipients: set<MemberId>, event: Event)
    | Refused(error: RoomError)

  function MemberName(index: nat): MemberId {
    "m" + Decimal(index)
  }

  lemma MemberNameInjective(i: nat, j: nat)
    requires MemberName(i) == MemberName(j)
    ensures i == j
  {
    assert MemberName(i)[1..] == Decimal(i) && MemberName(j)[1..] == Decimal(j);
    DecimalInjective(i, j);
  }

  lemma MemberNameNotBlank(index: nat)
    ensures !Blank(MemberName(index))
  {
    assert !IsWhitespace(MemberName(index)[0]);
  }

  function NewRoom(id: string, hostName: string, fingerprint: Option<string>): Result<Room, RoomError> {
    var host := Member(MemberName(1), hostName, fingerprint);
    if ValidMember(host).Invalid? then Failure(Protocol(ValidMember(host).error))
    else Success(Room(id, host.id, map[host.id := host], map[], 2))
  }

  /** One event, to every member of a set, in key order. */
  function Fanout(recipients: set<MemberId>, event: Event): seq<Routed> {
    FanoutTo(Sorted(recipients), event)
  }

  function FanoutTo(recipients: seq<MemberId>, event: Event): (r: seq<Routed>)
    ensures |r| == |recipients|
    ensures forall i | 0 <= i < |r| :: r[i] == Routed(recipients[i], event)
  {
    seq(|recipients|, i requires 0 <= i < |recipients| => Routed(recipients[i], event))
  }

  function Snapshot(members: map<MemberId, Member>): seq<Member> {
    var ids := Sorted(members.Keys);
    seq(|ids|, i requires 0 <= i < |ids| => assert ids[i] in ids; members[ids[i]])
  }

  /** What a joiner is sent before anything else. */
  function Greeting(room: Room, joiner: MemberId): seq<Event> {
    [RoomWelcome(room.id, joiner, room.host), MemberSnapshot(Snapshot(room.members))]
  }

  /** Every channel without one member; a channel left with fewer than two participants is dropped. */
  function Without(channels: map<ChannelId, Channel>, member: MemberId): map<ChannelId, Channel> {
    map c | c in channels && |channels[c].participants - {member}| >= 2
      :: channels[c].(participants := channels[c].participants - {member})
  }

  function LeaveChannel(channels: map<ChannelId, Channel>, channel: ChannelId, member: MemberId)
    : map<ChannelId, Channel>
  {
    if channel !in channels then channels
    else
      var rest := channels[channel].participants - {member};
      if |rest| < 2 then channels - {channel}
      else channels[channel := channels[channel].(participants := rest)]
  }

  function JoinRoom(room: Room, name: string, fingerprint: Option<string>): Outcome {
    var m := Member(MemberName(room.nextIndex), name, fingerprint);
    if ValidMember(m).Invalid? then Refused(Protocol(ValidMember(m).error))
    else
      Applied(
        room.(members := room.members[m.id := m], nextIndex := room.nextIndex + 1),
        room.members.Keys,
        MemberJoined(m))
  }

  function LeaveRoom(room: Room, member: MemberId, reason: Option<string>): Outcome {
    if member == room.host then Refused(HostCannotLeaveRoom)
    else if member !in room.members then Refused(UnknownMember)
    else
      var members := room.members - {member};
      Applied(
        room.(members := members, channels := Without(room.channels, member)),
        members.Keys,
        MemberLeft(member, reason))
  }

  /** Everybody a route reaches, other than the sender. */
  function RouteTargets(room: Room, sender: MemberId, to: Route): Result<set<MemberId>, RoomError> {
    if sender !in room.members then Failure(UnknownMember)
    else match to
      case All => Success(room.members.Keys - {sender})
      case To(member) =>
        if member !in room.members then Failure(UnknownMember) else Success({member} - {sender})
  }

  function Chat(room: Room, event: Event): Outcome
    requires event.ChatReceived?
  {
    if event.from !in room.members then Refused(UnknownMember)
    else if ValidEvent(event).Invalid? then Refused(Protocol(ValidEvent(event).error))
    else match RouteTargets(room, event.from, event.to)
      case Failure(error) => Refused(error)
      case Success(targets) => Applied(room, targets, event)
  }

  function Participants(members: set<MemberId>, from: MemberId, to: Route): set<MemberId> {
    {from} + (if to.All? then members else {to.member})
  }

  function Open(room: Room, event: Event): Outcome
    requires event.ChannelOpened?
  {
    if event.from !in room.members then Refused(UnknownMember)
    else if event.channel in room.channels then Refused(ChannelAlreadyOpen)
    else if event.to.To? && event.to.member !in room.members then Refused(UnknownMember)
    else if ValidEvent(event).Invalid? then Refused(Protocol(ValidEvent(event).error))
    else
      var participants := Participants(room.members.Keys, event.from, event.to);
      var created := Channel(event.from, event.kind, participants, event.name, event.size, event.mime, event.transfer);
      Applied(room.(channels := room.channels[event.channel := created]), participants - {event.from}, event)
  }

  function Update(room: Room, member: MemberId, channel: ChannelId, size: Option<nat>, offer: TransferOffer): Outcome {
    var event := UpdateEvent(channel, size, offer);
    if member !in room.members then Refused(UnknownMember)
    else if channel !in room.channels then Refused(UnknownChannel)
    else if room.channels[channel].opener != member then Refused(NotChannelOpener)
    else if room.channels[channel].kind != File then Refused(ChannelTransferUpdateUnsupported)
    else if ValidEvent(event).Invalid? then Refused(Protocol(ValidEvent(event).error))
    else
      var updated := room.channels[channel].(size := size, transfer := Some(offer));
      Applied(
        room.(channels := room.channels[channel := updated]),
        (updated.participants - {member}) * room.members.Keys,
        event)
  }

  /** The other current participants of a channel, which is whom a channel event is for. */
  function ChannelTargets(room: Room, sender: MemberId, channel: ChannelId, event: Event)
    : Result<set<MemberId>, RoomError>
  {
    if sender !in room.members then Failure(UnknownMember)
    else if ValidEvent(event).Invalid? then Failure(Protocol(ValidEvent(event).error))
    else if channel !in room.channels then Failure(UnknownChannel)
    else if event.ChannelData? && room.channels[channel].kind in {File, Pipe} then Failure(ChannelDataUnsupported)
    else if sender !in room.channels[channel].participants then Failure(MemberNotInChannel)
    else Success((room.channels[channel].participants - {sender}) * room.members.Keys)
  }

  /** A channel event that leaves the room as it is, or that takes the sender out of the channel. */
  function OnChannel(room: Room, sender: MemberId, channel: ChannelId, event: Event, leaving: bool): Outcome {
    match ChannelTargets(room, sender, channel, event)
    case Failure(error) => Refused(error)
    case Success(targets) =>
      var room' := if leaving then room.(channels := LeaveChannel(room.channels, channel, sender)) else room;
      Applied(room', targets, event)
  }

  function Execute(room: Room, actor: MemberId, command: Command): Outcome {
    if actor !in room.members then Refused(UnknownMember)
    else
      var name := room.members[actor].name;
      match command
      case SendChat(to, text) => Chat(room, ChatReceived(actor, name, to, text))
      case OpenChannel(channel, kind, to, title, size, mime, transfer) =>
        Open(room, ChannelOpened(channel, kind, actor, name, to, title, size, mime, transfer))
      case UpdateChannelTransfer(channel, size, offer) => Update(room, actor, channel, size, offer)
      case AcceptChannel(channel) =>
        OnChannel(room, actor, channel, ChannelAccepted(channel, actor, name), false)
      case RejectChannel(channel, reason) =>
        OnChannel(room, actor, channel, ChannelRejected(channel, actor, name, reason), true)
      case SendChannelData(channel, body) =>
        OnChannel(room, actor, channel, ChannelData(channel, actor, name, body), false)
      case CloseChannel(channel, reason) =>
        OnChannel(room, actor, channel, ChannelClosed(channel, actor, name, reason), true)
  }

  function Apply(room: Room, op: Op): Outcome {
    match op
    case Join(name, fingerprint) => JoinRoom(room, name, fingerprint)
    case Leave(member, reason) => LeaveRoom(room, member, reason)
    case Issue(actor, command) => Execute(room, actor, command)
  }

  ghost function Actor(room: Room, op: Op): MemberId {
    match op
    case Join(_, _) => MemberName(room.nextIndex)
    case Leave(member, _) => member
    case Issue(actor, _) => actor
  }

  // ----- the engine's invariant -----

  ghost predicate Indexed(id: MemberId, bound: nat) {
    exists i: nat :: i < bound && id == MemberName(i)
  }

  ghost predicate GoodChannel(members: set<MemberId>, c: Channel) {
    && c.participants <= members
    && (|c.participants| >= 2 || c.participants == {c.opener})
    && (c.transfer.Some? <==> c.kind == File)
  }

  ghost predicate GoodMembers(members: map<MemberId, Member>, bound: nat) {
    forall m | m in members :: members[m].id == m && !Blank(members[m].name) && !Blank(m) && Indexed(m, bound)
  }

  ghost predicate GoodChannels(members: set<MemberId>, channels: map<ChannelId, Channel>) {
    forall c | c in channels :: GoodChannel(members, channels[c])
  }

  ghost predicate Good(room: Room) {
    && room.host in room.members
    && GoodMembers(room.members, room.nextIndex)
    && GoodChannels(room.members.Keys, room.channels)
  }

  /** What one accepted operation guarantees: the invariant, the host, and events only for other members. */
  ghost predicate GoodOutcome(room: Room, actor: MemberId, out: Outcome) {
    out.Applied? ==>
      && Good(out.room)
      && out.room.host == room.host
      && room.nextIndex <= out.room.nextIndex
      && out.recipients <= out.room.members.Keys - {actor}
  }

  lemma NewRoomGood(id: string, hostName: string, fingerprint: Option<string>)
    ensures NewRoom(id, hostName, fingerprint).Failure? <==> Blank(hostName)
    ensures NewRoom(id, hostName, fingerprint).Success? ==> Good(NewRoom(id, hostName, fingerprint).value)
  {
    MemberNameNotBlank(1);
    assert Indexed(MemberName(1), 2);
  }

  lemma FreshId(room: Room)
    requires Good(room)
    ensures MemberName(room.nextIndex) !in room.members
  {
    if MemberName(room.nextIndex) in room.members {
      var i: nat :| i < room.nextIndex && MemberName(room.nextIndex) == MemberName(i);
      MemberNameInjective(i, room.nextIndex);
    }
  }

  lemma IndexedGrows(id: MemberId, from: nat, to: nat)
    requires Indexed(id, from) && from <= to
    ensures Indexed(id, to)
  {
    var i: nat :| i < from && id == MemberName(i);
    assert i < to;
  }

  lemma JoinGood(room: Room, name: string, fingerprint: Option<string>)
    requires Good(room)
    ensures GoodOutcome(room, MemberName(room.nextIndex), JoinRoom(room, name, fingerprint))
  {
    FreshId(room);
    MemberNameNotBlank(room.nextIndex);
    assert Indexed(MemberName(room.nextIndex), room.nextIndex + 1);
    forall m | m in room.members ensures Indexed(m, room.nextIndex + 1) {
      IndexedGrows(m, room.nextIndex, room.nextIndex + 1);
    }
  }

  lemma LeaveGood(room: Room, member: MemberId, reason: Option<string>)
    requires Good(room)
    ensures GoodOutcome(room, member, LeaveRoom(room, member, reason))
  {
  }

  lemma PairHasTwo(a: MemberId, b: MemberId, s: set<MemberId>)
    requires a != b && a in s && b in s
    ensures |s| >= 2
  {
    assert {a, b} <= s;
    assert |s - {a, b}| == |s| - |{a, b}|;
  }

  lemma ParticipantsAreGood(members: set<MemberId>, from: MemberId, to: Route)
    requires from in members
    ensures from in Participants(members, from, to)
    ensures Participants(members, from, to) == {from} || |Participants(members, from, to)| >= 2
    ensures (to.To? ==> to.member in members) ==> Participants(members, from, to) <= members
  {
    var participants := Participants(members, from, to);
    if participants != {from} {
      var other :| other in participants && other != from;
      PairHasTwo(from, other, participants);
    }
  }

  lemma OpenedTransfer(event: Event)
    requires event.ChannelOpened? && ValidEvent(event).Valid?
    ensures event.transfer.Some? <==> event.kind == File
  {
    assert ValidChannelTransfer(event.kind, event.transfer).Valid?;
  }

  lemma {:induction false} OpenGood(room: Room, event: Event)
    requires Good(room) && event.ChannelOpened?
    ensures GoodOutcome(room, event.from, Open(room, event))
  {
    if Open(room, event).Applied? {
      ParticipantsAreGood(room.members.Keys, event.from, event.to);
      OpenedTransfer(event);
    }
  }

  lemma UpdateGood(room: Room, member: MemberId, channel: ChannelId, size: Option<nat>, offer: TransferOffer)
    requires Good(room)
    ensures GoodOutcome(room, member, Update(room, member, channel, size, offer))
  {
  }

  lemma OnChannelGood(room: Room, sender: MemberId, channel: ChannelId, event: Event, leaving: bool)
    requires Good(room)
    ensures GoodOutcome(room, sender, OnChannel(room, sender, channel, event, leaving))
  {
  }

  /**
    Every operation on a good room, accepted or not: the host stays a member, channels hold current members
    (two of them, or the opener alone), transfer metadata goes with file channels, and nobody is sent
    an event of their own doing.
  */
  lemma ApplyGood(room: Room, op: Op)
    requires Good(room)
    ensures GoodOutcome(room, Actor(room, op), Apply(room, op))
  {
    match op
    case Join(name, fingerprint) => JoinGood(room, name, fingerprint);
    case Leave(member, reason) => LeaveGood(room, member, reason);
    case Issue(actor, command) =>
      if actor in room.members {
        var name := room.members[actor].name;
        match command
        case SendChat(to, text) =>
        case OpenChannel(channel, kind, to, title, size, mime, transfer) =>
          OpenGood(room, ChannelOpened(channel, kind, actor, name, to, title, size, mime, transfer));
        case UpdateChannelTransfer(channel, size, offer) => UpdateGood(room, actor, channel, size, offer);
        case AcceptChannel(channel) =>
          OnChannelGood(room, actor, channel, ChannelAccepted(channel, actor, name), false);
        case RejectChannel(channel, reason) =>
          OnChannelGood(room, actor, channel, ChannelRejected(channel, actor, name, reason), true);
        case SendChannelData(channel, body) =>
          OnChannelGood(room, actor, channel, ChannelData(channel, actor, name, body), false);
        case CloseChannel(channel, reason) =>
          OnChannelGood(room, actor, channel, ChannelClosed(channel, actor, name, reason), true);
      }
  }

  /** Commands change channels only. */
  lemma ExecuteKeepsMembers(room: Room, actor: MemberId, command: Command)
    requires Execute(room, actor, command).Applied?
    ensures var room' := Execute(room, actor, command).room;
            room'.members == room.members && room'.host == room.host && room'.nextIndex == room.nextIndex
    ensures actor in room.members
  {
  }
}
