/**
  A joiner's view of the room: the state every joiner keeps, what each event does to it, what its own commands do
  to it without waiting for the host, and whom it then contacts directly.
*/
module Replica {
  import opened Wrappers
  import opened Ordering
  import opened RoomProtocol

  datatype JoinChannel = JoinChannel(
    opener: MemberId, kind: ChannelKind, participants: set<MemberId>, name: Option<string>,
    size: Option<nat>, transfer: Option<TransferOffer>, localFileReady: bool)

  /** A file whose bytes have all arrived, waiting for its digest. */
  datatype ReceivedFile = ReceivedFile(tempPath: string, finalPath: string, actualHash: string, size: nat)

  datatype View = View(
    self: Option<MemberId>, host: Option<MemberId>, members: map<MemberId, Member>,
    tickets: map<MemberId, string>, channels: map<ChannelId, JoinChannel>, links: set<MemberId>,
    pendingAccepted: set<ChannelId>, pendingReceived: map<ChannelId, ReceivedFile>, pendingHostTicket: Option<string>)

  function Blank(hostTicket: Option<string>): View {
    View(None, None, map[], map[], map[], {}, {}, map[], hostTicket)
  }

  function SnapshotMap(members: seq<Member>): map<MemberId, Member> {
    if members == [] then map[]
    else
      var last := members[|members| - 1];
      SnapshotMap(members[..|members| - 1])[last.id := last]
  }

  /** Who takes part in a channel, as far as this member knows; fails on unknown members. */
  function EventParticipants(members: map<MemberId, Member>, from: MemberId, to: Route): Option<set<MemberId>> {
    if from !in members then None
    else match to
      case All => Some({from} + members.Keys)
      case To(member) => if member in members then Some({from} + {member}) else None
  }

  /** A channel stays while it has two participants and this member is one of them. */
  predicate Kept(self: Option<MemberId>, participants: set<MemberId>) {
    |participants| >= 2 && (self.Some? ==> self.value in participants)
  }

  function Without(self: Option<MemberId>, channels: map<ChannelId, JoinChannel>, member: MemberId)
    : map<ChannelId, JoinChannel>
  {
    map c | c in channels && Kept(self, channels[c].participants - {member})
      :: channels[c].(participants := channels[c].participants - {member})
  }

  function LeaveChannel(self: Option<MemberId>, channels: map<ChannelId, JoinChannel>,
                        channel: ChannelId, member: MemberId): map<ChannelId, JoinChannel>
  {
    if channel !in channels then channels
    else
      var rest := channels[channel].participants - {member};
      if Kept(self, rest) then channels[channel := channels[channel].(participants := rest)]
      else channels - {channel}
  }

  function ApplyEvent(v: View, e: Event): View {
    match e
    case RoomWelcome(_, self, host) =>
      v.(self := Some(self), host := Some(host),
         tickets := if v.pendingHostTicket.Some? then v.tickets[host := v.pendingHostTicket.value] else v.tickets)
    case MemberSnapshot(members) => v.(members := SnapshotMap(members))
    case MemberJoined(member) => v.(members := v.members[member.id := member])
    case MemberLeft(member, _) =>
      v.(members := v.members - {member}, tickets := v.tickets - {member}, links := v.links - {member},
         channels := Without(v.self, v.channels, member))
    case RoomClosed(_) => v.(members := map[], tickets := map[], channels := map[], links := {})
    case ChannelOpened(channel, kind, from, _, to, name, size, _, transfer) =>
      var participants := EventParticipants(v.members, from, to);
      if participants.None? then v
      else
        v.(channels := v.channels[channel :=
          JoinChannel(from, kind, participants.value, name, size, transfer, v.self == Some(from))])
    case ChannelTransferReady(channel, size, offer) => SetTransfer(v, channel, size, offer)
    case ChannelTransferFinalized(channel, size, offer) => SetTransfer(v, channel, size, offer)
    case ChannelPathReceived(channel, _, _) =>
      v.(channels :=
           if channel in v.channels then v.channels[channel := v.channels[channel].(localFileReady := true)]
           else v.channels,
         pendingAccepted := v.pendingAccepted - {channel},
         pendingReceived := v.pendingReceived - {channel})
    case ChannelClosed(channel, member, _, _) => DropOut(v, channel, member)
    case ChannelRejected(channel, member, _, _) => DropOut(v, channel, member)
    case _ => v
  }

  function SetTransfer(v: View, channel: ChannelId, size: Option<nat>, offer: TransferOffer): View {
    if channel !in v.channels then v
    else v.(channels := v.channels[channel := v.channels[channel].(size := size, transfer := Some(offer))])
  }

  /** A member closes or rejects a channel: an acceptance waits on only while this member still takes part. */
  function DropOut(v: View, channel: ChannelId, member: MemberId): View {
    var channels := LeaveChannel(v.self, v.channels, channel, member);
    var takesPart := v.self.Some? && channel in channels && v.self.value in channels[channel].participants;
    v.(channels := channels,
       pendingAccepted := if takesPart then v.pendingAccepted else v.pendingAccepted - {channel},
       pendingReceived := v.pendingReceived - {channel})
  }

  /** What issuing a command does to the issuer's own view, beside sending it to the host. */
  function OwnEffect(v: View, self: MemberId, localName: string, c: Command): View {
    match c
    case OpenChannel(channel, kind, to, name, size, mime, transfer) =>
      ApplyEvent(v, ChannelOpened(channel, kind, self, localName, to, name, size, mime, transfer))
    case UpdateChannelTransfer(channel, size, offer) => ApplyEvent(v, UpdateEvent(channel, size, offer))
    case RejectChannel(channel, _) => v.(channels := v.channels - {channel})
    case CloseChannel(channel, _) => v.(channels := v.channels - {channel})
    case _ => v
  }

  // ----- what a view remembers -----

  /** Whom this member can fetch from and whom it is linked to, after an event. */
  lemma WhomAViewRemembers(v: View, e: Event, p: MemberId)
    ensures var after := ApplyEvent(v, e);
            var gone := e.RoomClosed? || (e.MemberLeft? && e.member == p);
            var greeted := e.RoomWelcome? && e.host == p && v.pendingHostTicket.Some?;
            && after.self == (if e.RoomWelcome? then Some(e.self) else v.self)
            && after.host == (if e.RoomWelcome? then Some(e.host) else v.host)
            && after.pendingHostTicket == v.pendingHostTicket
            && (p in after.tickets <==> greeted || (p in v.tickets && !gone))
            && (p in after.tickets ==>
                  after.tickets[p] == if greeted then v.pendingHostTicket.value else v.tickets[p])
            && (p in after.links <==> p in v.links && !gone)
  {
  }

  /** The transfers under way, after an event. */
  lemma {:induction false} WhichFilesAViewRemembers(v: View, e: Event, c: ChannelId)
    ensures var after := ApplyEvent(v, e);
            var over := (e.ChannelClosed? || e.ChannelRejected?) && e.channel == c;
            var kept := e.ChannelPathReceived? && e.channel == c;
            var takesPart := v.self.Some? && c in after.channels && v.self.value in after.channels[c].participants;
            && (c in after.pendingAccepted <==> c in v.pendingAccepted && !kept && (over ==> takesPart))
            && (c in after.pendingReceived <==> c in v.pendingReceived && !kept && !over)
            && (c in after.pendingReceived ==> after.pendingReceived[c] == v.pendingReceived[c])
  {
  }

  /** Somebody who can be told to take part: everybody, or a member this one knows. */
  ghost predicate Reachable(v: View, to: Route) {
    to.To? ==> to.member in v.members
  }

  /** A channel that is opened shows when its opener and the others are known; its opener has the file already. */
  lemma WhatAnOpeningShows(v: View, e: Event, c: ChannelId)
    requires e.ChannelOpened?
    ensures var after := ApplyEvent(v, e);
            var shown := e.channel == c && e.from in v.members && Reachable(v, e.to);
            && after.(channels := v.channels) == v
            && (!shown ==> (c in after.channels <==> c in v.channels))
            && (!shown && c in v.channels ==> after.channels[c] == v.channels[c])
            && (shown ==>
                  && c in after.channels
                  && after.channels[c].localFileReady == (v.self == Some(e.from))
                  && after.channels[c].opener == e.from && after.channels[c].kind == e.kind
                  && after.channels[c].name == e.name && after.channels[c].size == e.size
                  && after.channels[c].transfer == e.transfer
                  && forall p :: p in after.channels[c].participants <==>
                                 p == e.from || if e.to.All? then p in v.members else p == e.to.member)
  {
  }

  /** When the room closes, nobody is left and no channel. */
  lemma NothingIsLeft(v: View, reason: string)
    ensures var after := ApplyEvent(v, RoomClosed(reason));
            after.members.Keys == {} && after.tickets.Keys == {} && after.channels.Keys == {} && after.links == {}
  {
  }

  // ----- direct traffic -----

  datatype Refusal = UnknownMember | UnknownChannel | ChannelDataUnsupported | MemberNotInChannel

  function ChatRecipients(self: MemberId, route: Route, members: map<MemberId, Member>)
    : Result<seq<MemberId>, Refusal>
  {
    match route
    case All => Success(Sorted(members.Keys - {self}))
    case To(member) =>
      if member == self then Success([])
      else if member !in members then Failure(UnknownMember)
      else Success([member])
  }

  function ChannelRecipients(self: MemberId, channel: ChannelId, channels: map<ChannelId, JoinChannel>)
    : Result<seq<MemberId>, Refusal>
  {
    if channel !in channels then Failure(UnknownChannel)
    else if channels[channel].kind == File then Failure(ChannelDataUnsupported)
    else if self !in channels[channel].participants then Failure(MemberNotInChannel)
    else Success(Sorted(channels[channel].participants - {self}))
  }

  /** A member sends to nobody but those it may, and never to itself. */
  lemma WhoIsAddressed(self: MemberId, route: Route, members: map<MemberId, Member>, channel: ChannelId,
                       channels: map<ChannelId, JoinChannel>)
    ensures ChatRecipients(self, route, members).Success? <==>
            (route.To? ==> route.member == self || route.member in members)
    ensures ChatRecipients(self, route, members).Success? ==>
              forall p :: p in ChatRecipients(self, route, members).value <==>
                          p != self && if route.All? then p in members else p == route.member
    ensures ChannelRecipients(self, channel, channels).Success? <==>
            channel in channels && channels[channel].kind != File && self in channels[channel].participants
    ensures ChannelRecipients(self, channel, channels).Success? ==>
              forall p :: p in ChannelRecipients(self, channel, channels).value <==>
                          p != self && p in channels[channel].participants
  {
  }
}
