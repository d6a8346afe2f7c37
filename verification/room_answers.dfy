/**
  What the host's room answers: which commands it carries out, why it refuses the others, and what it announces.
*/
module RoomAnswers {
  import opened Wrappers
  import opened Text
  import opened Ordering
  import opened RoomProtocol
  import opened RoomAuthority

  // ----- well-formed commands -----

  ghost predicate RouteNamed(to: Route) {
    to.To? ==> !Blank(to.member)
  }

  /** A digest, where there is one, names its algorithm and its value. */
  ghost predicate Sealed(offer: TransferOffer) {
    offer.integrity.Some? ==> !Blank(offer.integrity.value.algorithm) && !Blank(offer.integrity.value.value)
  }

  ghost predicate WellFormed(c: Command) {
    match c
    case SendChat(to, text) => RouteNamed(to) && !Blank(text)
    case OpenChannel(channel, kind, to, _, _, _, transfer) =>
      && !Blank(channel) && RouteNamed(to)
      && (transfer.Some? <==> kind == File) && (transfer.Some? ==> Sealed(transfer.value))
    case UpdateChannelTransfer(channel, _, offer) => !Blank(channel) && Sealed(offer)
    case SendChannelData(channel, body) => !Blank(channel) && body != ""
    case AcceptChannel(channel) => !Blank(channel)
    case RejectChannel(channel, _) => !Blank(channel)
    case CloseChannel(channel, _) => !Blank(channel)
  }

  /** What is wrong with a command when an error is reported for it. */
  ghost predicate Wrong(c: Command, error: ProtocolError) {
    match error
    case EmptyIdentifier =>
      || (!c.SendChat? && Blank(c.channel))
      || ((c.SendChat? || c.OpenChannel?) && !RouteNamed(c.to))
      || (c.OpenChannel? && c.transfer.Some? && !Sealed(c.transfer.value))
      || (c.UpdateChannelTransfer? && !Sealed(c.offer))
    case EmptyChatMessage => c.SendChat? && Blank(c.text)
    case EmptyChannelData => c.SendChannelData? && c.body == ""
    case MissingTransferOffer => c.OpenChannel? && c.kind == File && c.transfer.None?
    case UnexpectedTransferOffer => c.OpenChannel? && c.kind != File && c.transfer.Some?
    case EmptyMemberSnapshot => false
  }

  lemma WhenACommandIsWellFormed(c: Command)
    ensures ValidCommand(c).Valid? <==> WellFormed(c)
    ensures ValidCommand(c).Invalid? ==> Wrong(c, ValidCommand(c).error)
  {
  }

  // ----- commands that are carried out -----

  predicate KnownRoute(room: Room, to: Route) {
    to.To? ==> to.member in room.members
  }

  predicate TakesPart(room: Room, channel: ChannelId, member: MemberId) {
    channel in room.channels && member in room.channels[channel].participants
  }

  /** Whether the room lets a member do what it asks for. */
  predicate Permitted(room: Room, actor: MemberId, c: Command) {
    match c
    case SendChat(to, _) => KnownRoute(room, to)
    case OpenChannel(channel, _, to, _, _, _, _) => channel !in room.channels && KnownRoute(room, to)
    case UpdateChannelTransfer(channel, _, _) =>
      channel in room.channels && room.channels[channel].opener == actor && room.channels[channel].kind == File
    case SendChannelData(channel, _) =>
      TakesPart(room, channel, actor) && room.channels[channel].kind !in {File, Pipe}
    case AcceptChannel(channel) => TakesPart(room, channel, actor)
    case RejectChannel(channel, _) => TakesPart(room, channel, actor)
    case CloseChannel(channel, _) => TakesPart(room, channel, actor)
  }

  /** Whom a command is about, the one who issues it included. */
  predicate Concerns(room: Room, c: Command, member: MemberId) {
    match c
    case SendChat(to, _) => to.All? || to.member == member
    case OpenChannel(_, _, to, _, _, _, _) => to.All? || to.member == member
    case UpdateChannelTransfer(channel, _, _) => TakesPart(room, channel, member)
    case SendChannelData(channel, _) => TakesPart(room, channel, member)
    case AcceptChannel(channel) => TakesPart(room, channel, member)
    case RejectChannel(channel, _) => TakesPart(room, channel, member)
    case CloseChannel(channel, _) => TakesPart(room, channel, member)
  }

  /** An event that tells in full what a member of that name has asked for. */
  predicate Conveys(e: Event, actor: MemberId, name: string, c: Command) {
    match c
    case SendChat(to, text) =>
      e.ChatReceived? && e.from == actor && e.fromName == name && e.to == to && e.text == text
    case OpenChannel(channel, kind, to, title, size, mime, transfer) =>
      && e.ChannelOpened? && e.channel == channel && e.kind == kind && e.from == actor && e.fromName == name
      && e.to == to && e.name == title && e.size == size && e.mime == mime && e.transfer == transfer
    case UpdateChannelTransfer(channel, size, offer) =>
      && (if offer.itemKind == SingleFile then e.ChannelTransferFinalized? else e.ChannelTransferReady?)
      && e.channel == channel && e.size == size && e.offer == offer
    case SendChannelData(channel, body) =>
      e.ChannelData? && e.channel == channel && e.from == actor && e.fromName == name && e.body == body
    case AcceptChannel(channel) =>
      e.ChannelAccepted? && e.channel == channel && e.member == actor && e.memberName == name
    case RejectChannel(channel, reason) =>
      e.ChannelRejected? && e.channel == channel && e.member == actor && e.memberName == name && e.reason == reason
    case CloseChannel(channel, reason) =>
      e.ChannelClosed? && e.channel == channel && e.member == actor && e.memberName == name && e.reason == reason
  }

  /** What a command asks for and what is then announced are well formed together. */
  lemma {:induction false} ValidTogether(e: Event, actor: MemberId, name: string, c: Command)
    requires Conveys(e, actor, name, c) && !Blank(actor) && !Blank(name)
    ensures ValidEvent(e) == ValidCommand(c)
  {
  }

  /** The outcome of a command that is well formed, permitted, or neither. */
  ghost predicate Answers(room: Room, actor: MemberId, c: Command, out: Outcome)
    requires actor in room.members
  {
    && (out.Applied? <==> ValidCommand(c).Valid? && Permitted(room, actor, c))
    && (out.Applied? ==>
          && Conveys(out.event, actor, room.members[actor].name, c)
          && forall p :: p in out.recipients <==> p in room.members && p != actor && Concerns(room, c, p))
  }

  lemma {:induction false} ChatAnswers(room: Room, actor: MemberId, c: Command)
    requires Good(room) && actor in room.members && c.SendChat?
    ensures Answers(room, actor, c, Execute(room, actor, c))
  {
    var name := room.members[actor].name;
    ValidTogether(ChatReceived(actor, name, c.to, c.text), actor, name, c);
  }

  lemma {:induction false} OpenAnswers(room: Room, actor: MemberId, c: Command)
    requires Good(room) && actor in room.members && c.OpenChannel?
    ensures Answers(room, actor, c, Execute(room, actor, c))
  {
    var name := room.members[actor].name;
    var e := ChannelOpened(c.channel, c.kind, actor, name, c.to, c.name, c.size, c.mime, c.transfer);
    ValidTogether(e, actor, name, c);
  }

  lemma {:induction false} UpdateAnswers(room: Room, actor: MemberId, c: Command)
    requires Good(room) && actor in room.members && c.UpdateChannelTransfer?
    ensures Answers(room, actor, c, Execute(room, actor, c))
  {
    ValidTogether(UpdateEvent(c.channel, c.size, c.offer), actor, room.members[actor].name, c);
  }

  /** The commands that are about a channel one takes part in. */
  predicate OnChannelOnly(c: Command) {
    c.SendChannelData? || c.AcceptChannel? || c.RejectChannel? || c.CloseChannel?
  }

  lemma {:induction false} OnChannelAnswers(room: Room, actor: MemberId, c: Command, e: Event, leaving: bool)
    requires Good(room) && actor in room.members && OnChannelOnly(c) && Conveys(e, actor, room.members[actor].name, c)
    ensures Answers(room, actor, c, OnChannel(room, actor, c.channel, e, leaving))
  {
    ValidTogether(e, actor, room.members[actor].name, c);
    if c.channel in room.channels {
      assert GoodChannel(room.members.Keys, room.channels[c.channel]);
    }
  }

  lemma {:induction false} CommandAnswers(room: Room, actor: MemberId, c: Command)
    requires Good(room) && actor in room.members
    ensures Answers(room, actor, c, Execute(room, actor, c))
  {
    var name := room.members[actor].name;
    match c
    case SendChat(_, _) => ChatAnswers(room, actor, c);
    case OpenChannel(_, _, _, _, _, _, _) => OpenAnswers(room, actor, c);
    case UpdateChannelTransfer(_, _, _) => UpdateAnswers(room, actor, c);
    case AcceptChannel(channel) =>
      OnChannelAnswers(room, actor, c, ChannelAccepted(channel, actor, name), false);
    case RejectChannel(channel, reason) =>
      OnChannelAnswers(room, actor, c, ChannelRejected(channel, actor, name, reason), true);
    case SendChannelData(channel, body) =>
      OnChannelAnswers(room, actor, c, ChannelData(channel, actor, name, body), false);
    case CloseChannel(channel, reason) =>
      OnChannelAnswers(room, actor, c, ChannelClosed(channel, actor, name, reason), true);
  }

  /** A command is carried out exactly when it is well formed and its issuer is a member who may do it. */
  lemma {:induction false} WhenACommandApplies(room: Room, actor: MemberId, c: Command)
    requires Good(room)
    ensures Execute(room, actor, c).Applied? <==>
            actor in room.members && WellFormed(c) && Permitted(room, actor, c)
  {
    WhenACommandIsWellFormed(c);
    if actor in room.members {
      CommandAnswers(room, actor, c);
    }
  }

  /** Everybody else it concerns is told, nobody but them, and in full. */
  lemma {:induction false} WhatACommandAnnounces(room: Room, actor: MemberId, c: Command)
    requires Good(room) && Execute(room, actor, c).Applied?
    ensures actor in room.members
    ensures var out := Execute(room, actor, c);
            && Conveys(out.event, actor, room.members[actor].name, c)
            && forall p :: p in out.recipients <==> p in room.members && p != actor && Concerns(room, c, p)
  {
    WhenACommandApplies(room, actor, c);
    CommandAnswers(room, actor, c);
  }

  /** Arrivals and departures are told to everybody else, and to them alone. */
  lemma ComingsAndGoings(room: Room, op: Op)
    requires Good(room) && !op.Issue?
    ensures var out := Apply(room, op);
            op.Join? ==>
              && (out.Applied? <==> !Blank(op.name))
              && (out.Applied? ==>
                    && out.event == MemberJoined(Member(Actor(room, op), op.name, op.fingerprint))
                    && out.recipients == room.members.Keys)
    ensures var out := Apply(room, op);
            op.Leave? ==>
              && (out.Applied? <==> op.member in room.members && op.member != room.host)
              && (out.Applied? ==>
                    out.event == MemberLeft(op.member, op.reason) && out.recipients == room.members.Keys - {op.member})
  {
    MemberNameNotBlank(room.nextIndex);
  }

  // ----- commands that are refused -----

  /** What makes a refusal with some error right. */
  ghost predicate Explains(room: Room, actor: MemberId, c: Command, error: RoomError) {
    match error
    case Protocol(wrong) => Wrong(c, wrong)
    case UnknownMember => actor !in room.members || ((c.SendChat? || c.OpenChannel?) && !KnownRoute(room, c.to))
    case UnknownChannel => (OnChannelOnly(c) || c.UpdateChannelTransfer?) && c.channel !in room.channels
    case ChannelAlreadyOpen => c.OpenChannel? && c.channel in room.channels
    case MemberNotInChannel =>
      OnChannelOnly(c) && c.channel in room.channels && actor !in room.channels[c.channel].participants
    case NotChannelOpener =>
      c.UpdateChannelTransfer? && c.channel in room.channels && room.channels[c.channel].opener != actor
    case ChannelTransferUpdateUnsupported =>
      c.UpdateChannelTransfer? && c.channel in room.channels && room.channels[c.channel].kind != File
    case ChannelDataUnsupported =>
      c.SendChannelData? && c.channel in room.channels && room.channels[c.channel].kind in {File, Pipe}
    case HostCannotLeaveRoom => false
  }

  lemma {:induction false} OnChannelRefusal(room: Room, actor: MemberId, c: Command, e: Event, leaving: bool)
    requires Good(room) && actor in room.members && OnChannelOnly(c) && Conveys(e, actor, room.members[actor].name, c)
    requires OnChannel(room, actor, c.channel, e, leaving).Refused?
    ensures Explains(room, actor, c, OnChannel(room, actor, c.channel, e, leaving).error)
  {
    ValidTogether(e, actor, room.members[actor].name, c);
    WhenACommandIsWellFormed(c);
  }

  lemma {:induction false} OtherRefusal(room: Room, actor: MemberId, c: Command)
    requires Good(room) && actor in room.members && !OnChannelOnly(c) && Execute(room, actor, c).Refused?
    ensures Explains(room, actor, c, Execute(room, actor, c).error)
  {
    var name := room.members[actor].name;
    WhenACommandIsWellFormed(c);
    match c
    case SendChat(to, text) => ValidTogether(ChatReceived(actor, name, to, text), actor, name, c);
    case OpenChannel(channel, kind, to, title, size, mime, transfer) =>
      ValidTogether(ChannelOpened(channel, kind, actor, name, to, title, size, mime, transfer), actor, name, c);
    case UpdateChannelTransfer(channel, size, offer) =>
      ValidTogether(UpdateEvent(channel, size, offer), actor, name, c);
  }

  /** A command is never refused for something that is not so. */
  lemma {:induction false} RefusedForAReason(room: Room, actor: MemberId, c: Command)
    requires Good(room) && Execute(room, actor, c).Refused?
    ensures Explains(room, actor, c, Execute(room, actor, c).error)
  {
    if actor in room.members {
      var name := room.members[actor].name;
      if c.AcceptChannel? {
        OnChannelRefusal(room, actor, c, ChannelAccepted(c.channel, actor, name), false);
      } else if c.RejectChannel? {
        OnChannelRefusal(room, actor, c, ChannelRejected(c.channel, actor, name, c.reason), true);
      } else if c.SendChannelData? {
        OnChannelRefusal(room, actor, c, ChannelData(c.channel, actor, name, c.body), false);
      } else if c.CloseChannel? {
        OnChannelRefusal(room, actor, c, ChannelClosed(c.channel, actor, name, c.reason), true);
      } else {
        OtherRefusal(room, actor, c);
      }
    }
  }

  // ----- what is left in the room -----

  /** Whom a channel is opened for. */
  ghost function Invited(room: Room, actor: MemberId, to: Route): set<MemberId> {
    set p | p in room.members && (p == actor || to.All? || to.member == p)
  }

  /** A channel without one of its participants, if two are left. */
  ghost predicate LeftBy(before: Channel, after: Option<Channel>, actor: MemberId) {
    var rest := before.participants - {actor};
    after == if |rest| >= 2 then Some(before.(participants := rest)) else None
  }

  ghost function ChannelIn(room: Room, channel: ChannelId): Option<Channel> {
    if channel in room.channels then Some(room.channels[channel]) else None
  }

  /** What a command leaves of the channel it is about. */
  ghost predicate Records(room: Room, actor: MemberId, c: Command, before: Option<Channel>, after: Option<Channel>)
    requires !c.SendChat?
  {
    match c
    case OpenChannel(_, kind, to, name, size, mime, transfer) =>
      after == Some(Channel(actor, kind, Invited(room, actor, to), name, size, mime, transfer))
    case UpdateChannelTransfer(_, size, offer) =>
      before.Some? && after == Some(before.value.(size := size, transfer := Some(offer)))
    case RejectChannel(_, _) => before.Some? && LeftBy(before.value, after, actor)
    case CloseChannel(_, _) => before.Some? && LeftBy(before.value, after, actor)
    case _ => after == before
  }

  /** One room comes from another by a command that is about one channel, or about none. */
  ghost predicate Changes(room: Room, after: Room, actor: MemberId, c: Command, k: ChannelId) {
    && after.(channels := room.channels) == room
    && (c.SendChat? || k != c.channel ==> ChannelIn(after, k) == ChannelIn(room, k))
    && (!c.SendChat? ==> Records(room, actor, c, ChannelIn(room, c.channel), ChannelIn(after, c.channel)))
  }

  lemma OpenChanges(room: Room, actor: MemberId, c: Command, e: Event, k: ChannelId)
    requires Good(room) && actor in room.members && c.OpenChannel? && e.ChannelOpened?
    requires Conveys(e, actor, room.members[actor].name, c) && Open(room, e).Applied?
    ensures Changes(room, Open(room, e).room, actor, c, k)
  {
    assert Invited(room, actor, c.to) == Participants(room.members.Keys, actor, c.to);
  }

  lemma UpdateChanges(room: Room, actor: MemberId, c: Command, k: ChannelId)
    requires c.UpdateChannelTransfer? && Update(room, actor, c.channel, c.size, c.offer).Applied?
    ensures Changes(room, Update(room, actor, c.channel, c.size, c.offer).room, actor, c, k)
  {
  }

  lemma OnChannelChanges(room: Room, actor: MemberId, c: Command, e: Event, k: ChannelId)
    requires OnChannelOnly(c)
    requires OnChannel(room, actor, c.channel, e, c.RejectChannel? || c.CloseChannel?).Applied?
    ensures Changes(room, OnChannel(room, actor, c.channel, e, c.RejectChannel? || c.CloseChannel?).room, actor, c, k)
  {
  }

  /** A command changes the channel it is about and nothing else. */
  lemma {:induction false} WhatACommandChanges(room: Room, actor: MemberId, c: Command, k: ChannelId)
    requires Good(room) && Execute(room, actor, c).Applied?
    ensures Changes(room, Execute(room, actor, c).room, actor, c, k)
  {
    var name := room.members[actor].name;
    match c
    case SendChat(to, text) =>
    case OpenChannel(channel, kind, to, title, size, mime, transfer) =>
      OpenChanges(room, actor, c, ChannelOpened(channel, kind, actor, name, to, title, size, mime, transfer), k);
    case UpdateChannelTransfer(_, _, _) => UpdateChanges(room, actor, c, k);
    case AcceptChannel(channel) => OnChannelChanges(room, actor, c, ChannelAccepted(channel, actor, name), k);
    case RejectChannel(channel, reason) =>
      OnChannelChanges(room, actor, c, ChannelRejected(channel, actor, name, reason), k);
    case SendChannelData(channel, body) =>
      OnChannelChanges(room, actor, c, ChannelData(channel, actor, name, body), k);
    case CloseChannel(channel, reason) =>
      OnChannelChanges(room, actor, c, ChannelClosed(channel, actor, name, reason), k);
  }

  /** The room at first: the host alone, as the first of the members, who are numbered as they come. */
  lemma TheRoomAtFirst(id: string, hostName: string, fingerprint: Option<string>)
    requires !Blank(hostName)
    ensures var host := Member(MemberName(1), hostName, fingerprint);
            NewRoom(id, hostName, fingerprint) == Success(Room(id, host.id, map[host.id := host], map[], 2))
  {
    MemberNameNotBlank(1);
  }

  /** Arrivals and departures change the members as announced, and channels only by taking the leaver out. */
  lemma {:induction false} WhoIsInTheRoom(room: Room, op: Op)
    requires Good(room) && Apply(room, op).Applied?
    ensures var after := Apply(room, op).room;
            && after.id == room.id && after.host == room.host
            && after.nextIndex == room.nextIndex + (if op.Join? then 1 else 0)
            && after.members ==
                 match op
                 case Join(name, fingerprint) =>
                   var id := MemberName(room.nextIndex); room.members[id := Member(id, name, fingerprint)]
                 case Leave(member, _) => room.members - {member}
                 case Issue(_, _) => room.members
    ensures op.Join? ==> Apply(room, op).room.channels == room.channels
    ensures op.Leave? ==>
              forall k :: match ChannelIn(room, k)
                          case None => ChannelIn(Apply(room, op).room, k) == None
                          case Some(before) => LeftBy(before, ChannelIn(Apply(room, op).room, k), op.member)
  {
    if op.Issue? {
      ExecuteKeepsMembers(room, op.actor, op.command);
      ApplyGood(room, op);
      WhatACommandChanges(room, op.actor, op.command, "");
    }
  }

  /** A newcomer is told which room it is in, who it is, and who the host is. */
  lemma WelcomeTells(room: Room, joiner: MemberId)
    ensures Greeting(room, joiner)[0] == RoomWelcome(room.id, joiner, room.host)
    ensures Greeting(room, joiner)[1].MemberSnapshot?
    ensures forall m | m in Greeting(room, joiner)[1].members :: m in room.members.Values
  {
    var ids := Sorted(room.members.Keys);
    assert forall i | 0 <= i < |ids| :: ids[i] in ids;
  }
}
