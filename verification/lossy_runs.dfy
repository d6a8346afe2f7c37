/** Runs of the host, from a new room, in which somebody is not told or a view goes wrong. */
module LossyRuns {
  import opened Wrappers
  import opened Text
  import opened Ordering
  import opened RoomProtocol
  import opened RoomAuthority
  import opened FileReceive
  import opened HostLinks
  import opened Mesh
  import opened RoomRefinement
  import opened RuntimeRefinement
  import Replica

  // ----- an acceptance that is forgotten -----

  /** A file of unknown size, for the host and for another member `r`, whose opener the host can fetch from. */
  predicate OfferedUnsized(h: Host, channel: ChannelId, r: MemberId) {
    && channel in h.room.channels
    && var c := h.room.channels[channel];
       && c.kind == File && c.size.None? && c.transfer.Some? && PutOff(c.transfer.value, c.size)
       && c.opener in Providers(h.peers) && {h.room.host, c.opener, r} <= c.participants
       && c.opener != h.room.host && r != h.room.host && r != c.opener
  }

  /** The host has left a channel whose acceptance it still holds. */
  predicate Forgotten(h: Host, channel: ChannelId, opener: MemberId, r: MemberId) {
    && channel in h.files.accepted && channel in h.room.channels && r in h.room.members
    && var c := h.room.channels[channel];
       && c.kind == File && c.size.None? && c.opener == opener && opener != h.room.host
       && h.room.host !in c.participants && r in c.participants && r != h.room.host && r != opener
  }

  lemma AcceptingChangesNothing(room: Room, actor: MemberId, channel: ChannelId)
    requires Execute(room, actor, AcceptChannel(channel)).Applied?
    ensures Execute(room, actor, AcceptChannel(channel)).room == room
  {
  }

  lemma {:induction false} AcceptanceIsPutOff(h: Host, channel: ChannelId, r: MemberId)
    requires OfferedUnsized(h, channel, r) && Execute(h.room, h.room.host, AcceptChannel(channel)).Applied?
    ensures !Faulted(h, Commanded(h.room.host, AcceptChannel(channel)))
    ensures var after := Obeyed(h, h.room.host, AcceptChannel(channel));
            after.room == h.room && channel in after.files.accepted
  {
    var out := Execute(h.room, h.room.host, AcceptChannel(channel));
    AcceptingChangesNothing(h.room, h.room.host, channel);
    var receipt := ServedBy(h, h.room.host, AcceptChannel(channel), out);
    assert receipt == HostAccept(h.room, Providers(h.peers), h.files, channel);
    assert receipt == HostReceipt(h.files.(accepted := h.files.accepted + {channel}), [], false);
  }

  lemma {:induction false} ClosedByOne(room: Room, member: MemberId, channel: ChannelId, reason: Option<string>)
    requires Execute(room, member, CloseChannel(channel, reason)).Applied?
    ensures Execute(room, member, CloseChannel(channel, reason)).room ==
            room.(channels := LeaveChannel(room.channels, channel, member))
  {
  }

  lemma ClosingServesNothing(h: Host, actor: MemberId, channel: ChannelId, reason: Option<string>)
    requires Execute(h.room, actor, CloseChannel(channel, reason)).Applied?
    ensures !Faulted(h, Commanded(actor, CloseChannel(channel, reason)))
    ensures Obeyed(h, actor, CloseChannel(channel, reason)).files == h.files
    ensures Obeyed(h, actor, CloseChannel(channel, reason)).room ==
            Execute(h.room, actor, CloseChannel(channel, reason)).room
  {
  }

  lemma {:induction false} ClosingForgets(h: Host, channel: ChannelId, opener: MemberId, r: MemberId,
                                          reason: Option<string>)
    requires Good(h.room) && channel in h.files.accepted && channel in h.room.channels
    requires h.room.channels[channel].kind == File && h.room.channels[channel].size.None?
    requires h.room.channels[channel].opener == opener
    requires {h.room.host, opener, r} <= h.room.channels[channel].participants
    requires opener != h.room.host && r != h.room.host && r != opener
    requires Execute(h.room, h.room.host, CloseChannel(channel, reason)).Applied?
    ensures Forgotten(Obeyed(h, h.room.host, CloseChannel(channel, reason)), channel, opener, r)
  {
    var c := h.room.channels[channel];
    ClosedByOne(h.room, h.room.host, channel, reason);
    ClosingServesNothing(h, h.room.host, channel, reason);
    PairHasTwo(opener, r, c.participants - {h.room.host});
    assert LeaveChannel(h.room.channels, channel, h.room.host)[channel]
        == c.(participants := c.participants - {h.room.host});
  }

  lemma {:induction false} ForgottenIsLost(h: Host, channel: ChannelId, opener: MemberId, r: MemberId, update: Command)
    requires Good(h.room) && Forgotten(h, channel, opener, r)
    requires update.UpdateChannelTransfer? && update.channel == channel && update.size.Some?
    requires Execute(h.room, opener, update).Applied?
    ensures r in Untold(h, Commanded(opener, update)) && !Spared(h.room, update, true)
  {
    var after := Execute(h.room, opener, update).room;
    UpdateOnly(h.room, opener, update);
    assert BadDownload(after, Providers(h.peers), channel);
    WhoIsUntold(h, opener, update, r);
  }

  /**
    The host accepts a file of unknown size, closes its side of the channel, and the opener then announces the size:
    the room has it, and the other receivers are never told.
  */
  lemma {:induction false} ForgottenAcceptance(h: Host, channel: ChannelId, r: MemberId, reason: Option<string>,
                                               update: Command)
    returns (closed: Host)
    requires Good(h.room) && OfferedUnsized(h, channel, r)
    requires Execute(h.room, h.room.host, AcceptChannel(channel)).Applied?
    requires Execute(h.room, h.room.host, CloseChannel(channel, reason)).Applied?
    requires update.UpdateChannelTransfer? && update.channel == channel && update.size.Some?
    ensures var accepted := Obeyed(h, h.room.host, AcceptChannel(channel));
            closed == Obeyed(accepted, h.room.host, CloseChannel(channel, reason))
    ensures var opener := h.room.channels[channel].opener;
            Execute(closed.room, opener, update).Applied? ==>
              r in Untold(closed, Commanded(opener, update)) && !Spared(closed.room, update, true)
  {
    var opener := h.room.channels[channel].opener;
    var accepted := Obeyed(h, h.room.host, AcceptChannel(channel));
    closed := Obeyed(accepted, h.room.host, CloseChannel(channel, reason));
    AcceptanceIsPutOff(h, channel, r);
    assert Good(closed.room) by {
      ClosingServesNothing(accepted, h.room.host, channel, reason);
      GoodAfter(h.room, Issue(h.room.host, CloseChannel(channel, reason)));
    }
    assert opener != h.room.host && r != h.room.host && r != opener;
    ClosingForgets(accepted, channel, opener, r, reason);
    if Execute(closed.room, opener, update).Applied? {
      ForgottenIsLost(closed, channel, opener, r, update);
    }
  }

  // ----- runs without trouble -----

  /** No link to a joiner is up yet, so none is broken. */
  ghost predicate Unlinked(peers: map<MemberId, PeerHandle>) {
    forall p | p in peers :: !peers[p].ready
  }

  lemma UnlinkedDelivers(peers: map<MemberId, PeerHandle>, routed: seq<Routed>, recipients: set<MemberId>)
    requires Unlinked(peers)
    ensures !AnyDead(peers, recipients) && !Cut(peers, routed) && Unlinked(Delivered(peers, routed))
  {
  }

  lemma AdmittedStaysUnlinked(peers: map<MemberId, PeerHandle>, newcomer: PeerHandle, room: Room)
    requires AllTicketed(peers) && Unlinked(peers) && newcomer.ticket.Some? && !newcomer.ready
    ensures Unlinked(Admitted(peers, newcomer, room))
  {
  }

  lemma {:induction false} ConnectStaysUnlinked(h: Host, name: string, ticket: string)
    requires Good(h.room) && AllTicketed(h.peers) && Unlinked(h.peers) && !Blank(name)
    ensures Connected(h, name, None, Some(ticket)).Success?
    ensures Unlinked(Connected(h, name, None, Some(ticket)).value.peers)
    ensures Connected(h, name, None, Some(ticket)).value.room == JoinRoom(h.room, name, None).room
  {
    var newcomer, out := Newcomer(h, name, None, Some(ticket)), JoinRoom(h.room, name, None);
    UnlinkedDelivers(h.peers, [], h.room.members.Keys);
    WhenConnectingFails(h, name, None, Some(ticket));
    ConnectedShape(h, name, None, Some(ticket));
    AdmittedStaysUnlinked(h.peers, newcomer, out.room);
    UnlinkedDelivers(Admitted(h.peers, newcomer, out.room), Announced(out), {});
  }

  lemma {:induction false} CommandStaysUnlinked(h: Host, actor: MemberId, command: Command)
    requires Unlinked(h.peers) && Execute(h.room, actor, command).Applied?
    ensures Unlinked(Obeyed(h, actor, command).peers)
    ensures Obeyed(h, actor, command).room == Execute(h.room, actor, command).room
    ensures !Cut(h.peers, Announced(Execute(h.room, actor, command)))
  {
    var routed := Announced(Execute(h.room, actor, command));
    UnlinkedDelivers(h.peers, routed, {});
    UnlinkedDelivers(h.peers, Made(h.peers, routed), {});
  }

  function HostTurns(inputs: seq<HostLinks.Input>): seq<Turn> {
    seq(|inputs|, i requires 0 <= i < |inputs| => HostTurn(inputs[i], "", None))
  }

  /** A run that has come to a room, with no link up yet and every view right all the way. */
  ghost predicate Comes(start: Room, inputs: seq<HostLinks.Input>, room: Room) {
    && HostLinks.Run(start, inputs).Success?
    && HostLinks.Run(start, inputs).value.host.room == room
    && Unlinked(HostLinks.Run(start, inputs).value.host.peers)
    && RuntimeRun(start, HostTurns(inputs)).Success?
    && RuntimeRun(start, HostTurns(inputs)).value.host == HostLinks.Run(start, inputs).value.host
    && AllSound(start, HostTurns(inputs), true)
  }

  /** An input that makes no trouble while no link is up. */
  ghost predicate Untroubled(h: Host, input: HostLinks.Input) {
    match input
    case Connect(name, fingerprint, ticket) => !Blank(name) && fingerprint.None? && ticket.Some?
    case Commanded(actor, command) => Execute(h.room, actor, command).Applied? && !Faulted(h, input)
    case _ => false
  }

  lemma {:induction false} UntroubledIsTold(h: Host, input: HostLinks.Input)
    requires Good(h.room) && Unlinked(h.peers) && Untroubled(h, input)
    ensures Untold(h, input) == {}
  {
    if input.Commanded? {
      forall r ensures r !in Untold(h, input) {
        UntoldOfCommand(h, input.actor, input.command, r);
        WhoIsNotTold(h, input.actor, input.command, r);
      }
    } else {
      AllToldUnlessCommanded(h, input);
    }
  }

  lemma CommandIsOp(room: Room, actor: MemberId, c: Command)
    ensures RoomOp(room, Commanded(actor, c)) == Some(Issue(actor, c))
    ensures Apply(room, Issue(actor, c)) == Execute(room, actor, c)
  {
  }

  lemma {:induction false} UntroubledStep(h: Host, input: HostLinks.Input)
    requires Good(h.room) && AllTicketed(h.peers) && Unlinked(h.peers) && Untroubled(h, input)
    ensures HostLinks.Step(h, input).Success? && Unlinked(HostLinks.Step(h, input).value.peers)
    ensures RoomOp(h.room, input).Some? && Apply(h.room, RoomOp(h.room, input).value).Applied?
    ensures HostLinks.Step(h, input).value.room == Apply(h.room, RoomOp(h.room, input).value).room
  {
    if input.Commanded? {
      CommandIsOp(h.room, input.actor, input.command);
      CommandStaysUnlinked(h, input.actor, input.command);
    } else {
      ConnectStaysUnlinked(h, input.name, input.ticket.value);
      WhenJoiningIsRefused(h.room, input.name, None);
    }
  }

  lemma {:induction false} NextInput(start: Room, inputs: seq<HostLinks.Input>, input: HostLinks.Input)
    requires HostLinks.Run(start, inputs).Success?
    requires HostLinks.Step(HostLinks.Run(start, inputs).value.host, input).Success?
    ensures var before, next := HostLinks.Run(start, inputs).value, HostLinks.Run(start, inputs + [input]);
            next.Success? && HostLinks.Step(before.host, input) == Success(next.value.host)
  {
    assert (inputs + [input])[..|inputs|] == inputs;
  }

  lemma HostTurnsNext(inputs: seq<HostLinks.Input>, input: HostLinks.Input)
    ensures var turns := HostTurns(inputs + [input]);
            && |turns| == |inputs| + 1 && turns[..|inputs|] == HostTurns(inputs)
            && turns[|inputs|] == HostTurn(input, "", None)
  {
  }

  lemma {:induction false} NextTurn(start: Room, inputs: seq<HostLinks.Input>, input: HostLinks.Input)
    requires RuntimeRun(start, HostTurns(inputs)).Success? && AllSound(start, HostTurns(inputs), true)
    requires HostLinks.Step(RuntimeRun(start, HostTurns(inputs)).value.host, input).Success?
    requires SoundInput(RuntimeRun(start, HostTurns(inputs)).value, input, true)
    ensures var before := RuntimeRun(start, HostTurns(inputs)).value;
            var next := RuntimeRun(start, HostTurns(inputs + [input]));
            next.Success? && Success(next.value.host) == HostLinks.Step(before.host, input)
    ensures AllSound(start, HostTurns(inputs + [input]), true)
  {
    HostTurnsNext(inputs, input);
  }

  lemma UntoldNobodyIsSound(w: Runtime, input: HostLinks.Input, op: Op)
    requires RoomOp(w.host.room, input) == Some(op) && Apply(w.host.room, op).Applied? && Untold(w.host, input) == {}
    ensures SoundInput(w, input, true)
  {
  }

  lemma {:induction false} Continues(start: Room, inputs: seq<HostLinks.Input>, room: Room, input: HostLinks.Input,
                                     op: Op, after: Room)
    requires Good(start) && start.members.Keys == {start.host} && Comes(start, inputs, room)
    requires Untroubled(HostLinks.Run(start, inputs).value.host, input)
    requires RoomOp(room, input) == Some(op) && Apply(room, op).Applied? && after == Apply(room, op).room
    ensures Comes(start, inputs + [input], after)
  {
    var h := HostLinks.Run(start, inputs).value.host;
    RunKeepsInv(start, inputs);
    GoodPeersNumbered(h.room, h.peers);
    UntroubledStep(h, input);
    NextInput(start, inputs, input);
    UntroubledIsTold(h, input);
    UntoldNobodyIsSound(RuntimeRun(start, HostTurns(inputs)).value, input, op);
    NextTurn(start, inputs, input);
  }

  // ----- three members and a file -----

  const HOST: MemberId := MemberName(1)
  const FIRST: MemberId := MemberName(2)
  const SECOND: MemberId := MemberName(3)

  lemma ThreeNames()
    ensures HOST != FIRST && HOST != SECOND && FIRST != SECOND && Below(FIRST, SECOND)
    ensures !Blank("h") && !Blank("g") && !Blank("k") && !Blank("c")
  {
    assert HOST[1] == '1' && FIRST[1] == '2' && SECOND[1] == '3';
    assert FIRST[0] == SECOND[0];
    assert "h"[0] == 'h' && "g"[0] == 'g' && "k"[0] == 'k' && "c"[0] == 'c';
  }

  function Alone(): Room {
    Room("demo", HOST, map[HOST := Member(HOST, "h", None)], map[], 2)
  }

  function Three(channels: map<ChannelId, Channel>): Room {
    Room("demo", HOST, map[HOST := Member(HOST, "h", None), FIRST := Member(FIRST, "g", None),
                           SECOND := Member(SECOND, "k", None)], channels, 4)
  }

  lemma AloneIsNew()
    ensures NewRoom("demo", "h", None) == Success(Alone())
    ensures Good(Alone()) && Alone().members.Keys == {Alone().host}
  {
    ThreeNames();
    MemberNameNotBlank(1);
    NewRoomGood("demo", "h", None);
  }

  lemma AloneComes()
    ensures Comes(Alone(), [], Alone())
  {
    assert HostTurns([]) == [];
  }

  function WithGuest(room: Room, name: string): Room {
    var guest := Member(MemberName(room.nextIndex), name, None);
    room.(members := room.members[guest.id := guest], nextIndex := room.nextIndex + 1)
  }

  lemma JoinedRoom(room: Room, name: string)
    requires !Blank(name)
    ensures Apply(room, Join(name, None)).Applied? && Apply(room, Join(name, None)).room == WithGuest(room, name)
  {
    WhenJoiningIsRefused(room, name, None);
  }

  lemma {:induction false} GuestJoins(inputs: seq<HostLinks.Input>, room: Room, name: string)
    requires Comes(Alone(), inputs, room) && !Blank(name)
    ensures Comes(Alone(), inputs + [Connect(name, None, Some("t"))], WithGuest(room, name))
  {
    AloneIsNew();
    JoinedRoom(room, name);
    Continues(Alone(), inputs, room, Connect(name, None, Some("t")), Join(name, None), WithGuest(room, name));
  }

  lemma {:induction false} MemberCommands(inputs: seq<HostLinks.Input>, room: Room, actor: MemberId, c: Command,
                                          after: Room)
    requires Comes(Alone(), inputs, room)
    requires Execute(room, actor, c).Applied? && after == Execute(room, actor, c).room
    requires !Faulted(HostLinks.Run(Alone(), inputs).value.host, Commanded(actor, c))
    ensures Comes(Alone(), inputs + [Commanded(actor, c)], after)
  {
    AloneIsNew();
    CommandIsOp(room, actor, c);
    Continues(Alone(), inputs, room, Commanded(actor, c), Issue(actor, c), after);
  }

  const GUEST: seq<HostLinks.Input> := [Connect("g", None, Some("t"))]

  const GUESTS: seq<HostLinks.Input> := GUEST + [Connect("k", None, Some("t"))]

  lemma {:induction false} FirstJoins()
    ensures Comes(Alone(), GUEST, TwoMembers(map[]))
  {
    ThreeNames();
    AloneComes();
    GuestJoins([], Alone(), "g");
    assert [] + GUEST == GUEST;
    assert TwoMembers(map[]) == WithGuest(Alone(), "g");
  }

  lemma {:induction false} GuestsJoin()
    ensures Comes(Alone(), GUESTS, Three(map[]))
  {
    ThreeNames();
    FirstJoins();
    GuestJoins(GUEST, TwoMembers(map[]), "k");
    assert Three(map[]) == WithGuest(TwoMembers(map[]), "k");
  }

  function Offer(): TransferOffer {
    TransferOffer(SingleFile, None)
  }

  /** A file of unknown size, offered by the first guest to everybody. */
  function Offered(): Channel {
    Channel(FIRST, File, {HOST, FIRST, SECOND}, None, None, None, Some(Offer()))
  }

  const OFFERING: HostLinks.Input :=
    Commanded(FIRST, Command.OpenChannel("c", File, All, None, None, None, Some(Offer())))

  lemma {:induction false} OpensForAll(room: Room, actor: MemberId, c: Command)
    requires Good(room) && actor in room.members && c.OpenChannel? && c.to == All && c.channel !in room.channels
    requires ValidCommand(c).Valid?
    ensures var created := Channel(actor, c.kind, room.members.Keys, c.name, c.size, c.mime, c.transfer);
            && Execute(room, actor, c).Applied?
            && Execute(room, actor, c).room == room.(channels := room.channels[c.channel := created])
  {
    var name := room.members[actor].name;
    var e := ChannelOpened(c.channel, c.kind, actor, name, c.to, c.name, c.size, c.mime, c.transfer);
    assert ValidEvent(e).Valid?;
    OpenedAs(room, e);
    assert Participants(room.members.Keys, actor, All) == room.members.Keys;
  }

  lemma OpeningServesNothing(h: Host, actor: MemberId, c: Command)
    requires c.OpenChannel?
    ensures !Faulted(h, Commanded(actor, c))
  {
  }

  lemma ThreeAreGood()
    ensures Good(Three(map[])) && Three(map[]).members.Keys == {HOST, FIRST, SECOND}
  {
    GuestsJoin();
    AloneIsNew();
    RunKeepsInv(Alone(), GUESTS);
  }

  lemma OfferingApplies()
    ensures var out := Execute(Three(map[]), FIRST, OFFERING.command);
            out.Applied? && out.room == Three(map["c" := Offered()])
  {
    ThreeNames();
    ThreeAreGood();
    assert ValidCommand(OFFERING.command).Valid?;
    OpensForAll(Three(map[]), FIRST, OFFERING.command);
  }

  lemma {:induction false} OfferComes()
    ensures Comes(Alone(), GUESTS + [OFFERING], Three(map["c" := Offered()]))
  {
    GuestsJoin();
    OfferingApplies();
    OpeningServesNothing(HostLinks.Run(Alone(), GUESTS).value.host, FIRST, OFFERING.command);
    MemberCommands(GUESTS, Three(map[]), FIRST, OFFERING.command, Three(map["c" := Offered()]));
  }

  /** The host of a run that has come to a room. */
  lemma {:induction false} HostOf(inputs: seq<HostLinks.Input>, room: Room) returns (h: Host)
    requires Comes(Alone(), inputs, room)
    ensures h == HostLinks.Run(Alone(), inputs).value.host && h.room == room && Unlinked(h.peers)
    ensures Good(room) && AllTicketed(h.peers) && h.peers.Keys == room.members.Keys - {room.host}
  {
    AloneIsNew();
    RunKeepsInv(Alone(), inputs);
    h := HostLinks.Run(Alone(), inputs).value.host;
    GoodPeersNumbered(h.room, h.peers);
  }

  // ----- four runs -----

  /**
    The guest whose offer it is leaves, and the host accepts the file: the room has the other guest told, and nothing is
    handed on.
  */
  lemma {:induction false} AcceptanceReachesNobody() returns (inputs: seq<HostLinks.Input>, accept: HostLinks.Input)
    ensures HostLinks.Run(Alone(), inputs).Success? && accept == Commanded(HOST, Command.AcceptChannel("c"))
    ensures var h := HostLinks.Run(Alone(), inputs).value.host;
            && Execute(h.room, HOST, accept.command).Applied?
            && SECOND in Execute(h.room, HOST, accept.command).recipients
            && Loses(h, accept) && HandedOn(h, accept) == []
  {
    var sofar := GUESTS + [OFFERING];
    OfferComes();
    ThreeNames();
    var h := HostOf(sofar, Three(map["c" := Offered()]));
    UnlinkedDelivers(h.peers, [], h.room.members.Keys - {FIRST});
    WhenAStepFails(h, Gone(FIRST, None));
    NextInput(Alone(), sofar, Gone(FIRST, None));
    AcceptanceAfterDeparture(h, FIRST, None, "c", SECOND);
    inputs, accept := sofar + [Gone(FIRST, None)], Commanded(HOST, Command.AcceptChannel("c"));
  }

  lemma ChannelEventApplies(room: Room, sender: MemberId, channel: ChannelId, event: Event, leaving: bool)
    requires channel in room.channels && sender in room.members && sender in room.channels[channel].participants
    requires !event.ChannelData? && ValidEvent(event).Valid?
    ensures OnChannel(room, sender, channel, event, leaving).Applied?
  {
  }

  lemma {:induction false} MayClose(room: Room, member: MemberId, channel: ChannelId, reason: Option<string>)
    requires Good(room) && !Blank(channel) && channel in room.channels
    requires member in room.channels[channel].participants
    ensures Execute(room, member, CloseChannel(channel, reason)).Applied?
  {
    assert GoodChannel(room.members.Keys, room.channels[channel]);
    var event := ChannelClosed(channel, member, room.members[member].name, reason);
    assert ValidEvent(event).Valid?;
    ChannelEventApplies(room, member, channel, event, true);
  }

  lemma {:induction false} MayUpdate(room: Room, opener: MemberId, channel: ChannelId, size: Option<nat>,
                                     offer: TransferOffer)
    requires opener in room.members && !Blank(channel) && channel in room.channels && offer.integrity.None?
    requires room.channels[channel].opener == opener && room.channels[channel].kind == File
    ensures Execute(room, opener, UpdateChannelTransfer(channel, size, offer)).Applied?
  {
    assert ValidOffer(offer).Valid?;
    assert ValidEvent(UpdateEvent(channel, size, offer)).Valid?;
  }

  const OFFERED: seq<HostLinks.Input> := GUESTS + [OFFERING]

  const ACCEPTED: seq<HostLinks.Input> := OFFERED + [Commanded(HOST, AcceptChannel("c"))]

  const CLOSED: seq<HostLinks.Input> := ACCEPTED + [Commanded(HOST, CloseChannel("c", None))]

  lemma {:induction false} CommandObeyed(inputs: seq<HostLinks.Input>, actor: MemberId, c: Command)
    requires HostLinks.Run(Alone(), inputs).Success?
    ensures HostLinks.Run(Alone(), inputs + [Commanded(actor, c)]).Success?
    ensures HostLinks.Run(Alone(), inputs + [Commanded(actor, c)]).value.host
         == Obeyed(HostLinks.Run(Alone(), inputs).value.host, actor, c)
  {
    NextInput(Alone(), inputs, Commanded(actor, c));
  }

  lemma {:induction false} AcceptingComes(inputs: seq<HostLinks.Input>, room: Room, channel: ChannelId, r: MemberId)
    requires Comes(Alone(), inputs, room) && room.host == HOST
    requires OfferedUnsized(HostLinks.Run(Alone(), inputs).value.host, channel, r)
    requires Execute(room, HOST, AcceptChannel(channel)).Applied?
    ensures var after := inputs + [Commanded(HOST, AcceptChannel(channel))];
            && Comes(Alone(), after, room)
            && channel in HostLinks.Run(Alone(), after).value.host.files.accepted
  {
    AcceptingChangesNothing(room, HOST, channel);
    AcceptanceIsPutOff(HostLinks.Run(Alone(), inputs).value.host, channel, r);
    MemberCommands(inputs, room, HOST, AcceptChannel(channel), room);
    CommandObeyed(inputs, HOST, AcceptChannel(channel));
  }

  lemma {:induction false} OfferedHere(h: Host, room: Room)
    requires room == Three(map["c" := Offered()]) && h.room == room && AllTicketed(h.peers)
    requires h.peers.Keys == room.members.Keys - {room.host}
    ensures OfferedUnsized(h, "c", SECOND)
  {
    ThreeNames();
    assert FIRST in h.peers;
  }

  lemma {:induction false} OfferedIsAccepted(room: Room)
    requires Good(room) && room == Three(map["c" := Offered()])
    ensures Execute(room, HOST, AcceptChannel("c")).Applied?
  {
    ThreeNames();
    HostMayAccept(room, "c", SECOND);
  }

  lemma {:induction false} OfferMayBeAccepted(room: Room)
    requires room == Three(map["c" := Offered()]) && Comes(Alone(), OFFERED, room)
    ensures OfferedUnsized(HostLinks.Run(Alone(), OFFERED).value.host, "c", SECOND)
    ensures Execute(room, HOST, AcceptChannel("c")).Applied?
  {
    var h := HostOf(OFFERED, room);
    OfferedHere(h, room);
    OfferedIsAccepted(room);
  }

  lemma {:induction false} AcceptanceComes()
    ensures Comes(Alone(), ACCEPTED, Three(map["c" := Offered()]))
    ensures "c" in HostLinks.Run(Alone(), ACCEPTED).value.host.files.accepted
  {
    OfferComes();
    OfferMayBeAccepted(Three(map["c" := Offered()]));
    AcceptingComes(OFFERED, Three(map["c" := Offered()]), "c", SECOND);
  }

  function Left(): Room {
    Three(LeaveChannel(map["c" := Offered()], "c", HOST))
  }

  lemma {:induction false} ClosingApplies()
    ensures var out := Execute(Three(map["c" := Offered()]), HOST, CloseChannel("c", None));
            out.Applied? && out.room == Left()
  {
    OfferComes();
    ThreeNames();
    var h := HostOf(OFFERED, Three(map["c" := Offered()]));
    MayClose(Three(map["c" := Offered()]), HOST, "c", None);
    ClosedByOne(Three(map["c" := Offered()]), HOST, "c", None);
  }

  lemma {:induction false} ClosingComes() returns (closed: Host)
    ensures Comes(Alone(), CLOSED, Left())
    ensures closed == HostLinks.Run(Alone(), CLOSED).value.host && closed.room == Left()
    ensures Forgotten(closed, "c", FIRST, SECOND)
  {
    AcceptanceComes();
    ThreeNames();
    ClosingApplies();
    var h := HostOf(ACCEPTED, Three(map["c" := Offered()]));
    ClosingServesNothing(h, HOST, "c", None);
    MemberCommands(ACCEPTED, Three(map["c" := Offered()]), HOST, CloseChannel("c", None), Left());
    CommandObeyed(ACCEPTED, HOST, CloseChannel("c", None));
    ClosingForgets(h, "c", FIRST, SECOND, None);
    closed := HostLinks.Run(Alone(), CLOSED).value.host;
  }

  const SIZED: Command := UpdateChannelTransfer("c", Some(1), Offer())

  lemma ExactViewIsMore(room: Room, r: MemberId, v: Replica.View)
    requires Mirrors(room, r, v, true)
    ensures Mirrors(room, r, v, false)
  {
    assert forall c | c in v.channels :: SameChannel(room.channels[c], v.channels[c], true);
  }

  lemma {:induction false} ExactIsMore(w: Runtime)
    requires InStep(w, true)
    ensures InStep(w, false)
  {
    forall r | r in w.views ensures Mirrors(w.host.room, r, w.views[r], false) {
      ExactViewIsMore(w.host.room, r, w.views[r]);
    }
  }

  lemma {:induction false} RightSoFar(inputs: seq<HostLinks.Input>, room: Room) returns (w: Runtime)
    requires Comes(Alone(), inputs, room)
    ensures w == RuntimeRun(Alone(), HostTurns(inputs)).value && InStep(w, true) && InStep(w, false)
    ensures w.host == HostLinks.Run(Alone(), inputs).value.host
    ensures AlwaysInStep(Alone(), HostTurns(inputs), true)
  {
    AloneIsNew();
    w := RuntimeRun(Alone(), HostTurns(inputs)).value;
    EveryRuntimeRun(Alone(), HostTurns(inputs), true);
    ExactIsMore(w);
  }

  lemma CommandTurns(w: Runtime, actor: MemberId, c: Command, name: string)
    ensures RuntimeStep(w, HostTurn(Commanded(actor, c), name, None)).Success?
  {
  }

  lemma {:induction false} UntoldIsUnsound(w: Runtime, actor: MemberId, c: Command, r: MemberId)
    requires Execute(w.host.room, actor, c).Applied?
    requires r in Untold(w.host, Commanded(actor, c)) && !Spared(w.host.room, c, true)
    ensures !SoundInput(w, Commanded(actor, c), true)
  {
    CommandIsOp(w.host.room, actor, c);
    AppliedShape(w, Commanded(actor, c), "", None, Issue(actor, c), true);
  }

  lemma {:induction false} WrongOnceUntold(w: Runtime, actor: MemberId, c: Command, name: string, r: MemberId)
    requires InStep(w, true) && Execute(w.host.room, actor, c).Applied?
    requires r in Untold(w.host, Commanded(actor, c)) && !Spared(w.host.room, c, true)
    ensures var turn := HostTurn(Commanded(actor, c), name, None);
            RuntimeStep(w, turn).Success? && !InStep(RuntimeStep(w, turn).value, true)
  {
    CommandTurns(w, actor, c, name);
    UntoldIsUnsound(w, actor, c, r);
    StepIsFaithful(w, HostTurn(Commanded(actor, c), name, None), true);
  }

  lemma SizingApplies()
    ensures Execute(Left(), FIRST, SIZED).Applied?
  {
    ThreeNames();
    PairHasTwo(FIRST, SECOND, Offered().participants - {HOST});
    assert ValidOffer(Offer()).Valid?;
    MayUpdate(Left(), FIRST, "c", Some(1), Offer());
  }

  /**
    The host accepts the file and closes its side, and the first guest announces the size: all views have been right,
    and now the second guest's lacks the size.
  */
  lemma {:induction false} SizeIsNeverTold() returns (w: Runtime, update: Turn)
    ensures RuntimeRun(Alone(), HostTurns(CLOSED)) == Success(w) && AlwaysInStep(Alone(), HostTurns(CLOSED), true)
    ensures update == HostTurn(Commanded(FIRST, SIZED), "g", None) && SECOND in Untold(w.host, update.input)
    ensures RuntimeStep(w, update).Success? && !InStep(RuntimeStep(w, update).value, true)
  {
    var closed := ClosingComes();
    w := RightSoFar(CLOSED, Left());
    update := HostTurn(Commanded(FIRST, SIZED), "g", None);
    SizingApplies();
    ForgottenIsLost(closed, "c", FIRST, SECOND, SIZED);
    WrongOnceUntold(w, FIRST, SIZED, "g", SECOND);
  }

  lemma {:induction false} OpensForItself(room: Room, c: Command)
    requires Good(room) && c.OpenChannel? && c.to == To(room.host) && c.channel !in room.channels
    requires ValidCommand(c).Valid?
    ensures var created := Channel(room.host, c.kind, {room.host}, c.name, c.size, c.mime, c.transfer);
            && Execute(room, room.host, c).Applied?
            && Execute(room, room.host, c).room == room.(channels := room.channels[c.channel := created])
  {
    var host := room.members[room.host];
    var e := ChannelOpened(c.channel, c.kind, room.host, host.name, c.to, c.name, c.size, c.mime, c.transfer);
    assert ValidEvent(e).Valid?;
    OpenedAs(room, e);
    assert Participants(room.members.Keys, room.host, c.to) == {room.host};
  }

  function Machinery(to: Route): Command {
    Command.OpenChannel("c", Machine, to, None, None, None, None)
  }

  /** The host's own channel, with nobody else in it. */
  function Owned(): Channel {
    Channel(HOST, Machine, {HOST}, None, None, None, None)
  }

  const OWNED: seq<HostLinks.Input> := GUEST + [Commanded(HOST, Machinery(To(HOST)))]

  lemma MachineryIsValid()
    ensures ValidCommand(Machinery(To(HOST))).Valid? && ValidCommand(Machinery(All)).Valid?
  {
    ThreeNames();
    MemberNameNotBlank(1);
  }

  lemma {:induction false} OwningApplies()
    ensures var out := Execute(TwoMembers(map[]), HOST, Machinery(To(HOST)));
            out.Applied? && out.room == TwoMembers(map["c" := Owned()])
  {
    TwoMembersAreGood(map[]);
    MachineryIsValid();
    OpensForItself(TwoMembers(map[]), Machinery(To(HOST)));
  }

  lemma {:induction false} OpeningComes(inputs: seq<HostLinks.Input>, room: Room, actor: MemberId, c: Command,
                                        after: Room)
    requires Comes(Alone(), inputs, room) && c.OpenChannel?
    requires Execute(room, actor, c).Applied? && after == Execute(room, actor, c).room
    ensures Comes(Alone(), inputs + [Commanded(actor, c)], after)
  {
    OpeningServesNothing(HostLinks.Run(Alone(), inputs).value.host, actor, c);
    MemberCommands(inputs, room, actor, c, after);
  }

  lemma {:induction false} OwnedComes()
    ensures Comes(Alone(), OWNED, TwoMembers(map["c" := Owned()]))
  {
    FirstJoins();
    OwningApplies();
    OpeningComes(GUEST, TwoMembers(map[]), HOST, Machinery(To(HOST)), TwoMembers(map["c" := Owned()]));
  }

  lemma {:induction false} WrongOnceMisled(w: Runtime, actor: MemberId, c: Command, name: string)
    requires InStep(w, false) && MisleadingOpen(w, actor, c)
    ensures var turn := HostTurn(Commanded(actor, c), name, None);
            RuntimeStep(w, turn).Success? && !InStep(RuntimeStep(w, turn).value, false)
  {
    CommandTurns(w, actor, c, name);
    StepIsNearlyFaithful(w, HostTurn(Commanded(actor, c), name, None));
  }

  /** The host by itself opens a channel, and the guest opens another under the same identifier. */
  lemma {:induction false} RefusedOpeningMisleads() returns (w: Runtime, opening: Turn)
    ensures RuntimeRun(Alone(), HostTurns(OWNED)) == Success(w) && AlwaysInStep(Alone(), HostTurns(OWNED), true)
    ensures opening == HostTurn(Commanded(FIRST, Machinery(All)), "g", None)
    ensures Execute(w.host.room, FIRST, opening.input.command) == Refused(ChannelAlreadyOpen)
    ensures RuntimeStep(w, opening).Success? && !InStep(RuntimeStep(w, opening).value, false)
  {
    OwnedComes();
    ThreeNames();
    MachineryIsValid();
    w := RightSoFar(OWNED, TwoMembers(map["c" := Owned()]));
    opening := HostTurn(Commanded(FIRST, Machinery(All)), "g", None);
    AlreadyOpen(w.host.room, FIRST, Machinery(All));
    WrongOnceMisled(w, FIRST, Machinery(All), "g");
  }

  const LINKED: seq<HostLinks.Input> := GUESTS + [LinkReady(FIRST)] + [LinkBroken(FIRST)]

  lemma {:induction false} LinkBreaks(h: Host, p: MemberId)
    requires p in h.peers && Unlinked(h.peers)
    ensures var after := Broken(MadeReady(h, p), p);
            && after.room == h.room && after.peers.Keys == h.peers.Keys
            && forall q | q in h.peers :: Dead(after.peers, q) <==> q == p
  {
    assert h.peers[p := Flushed(h.peers[p])].Keys == h.peers.Keys;
  }

  lemma {:induction false} LinkBreaksNext(inputs: seq<HostLinks.Input>, p: MemberId)
    requires HostLinks.Run(Alone(), inputs).Success?
    ensures var after := HostLinks.Run(Alone(), inputs + [LinkReady(p)] + [LinkBroken(p)]);
            after.Success? && after.value.host == Broken(MadeReady(HostLinks.Run(Alone(), inputs).value.host, p), p)
  {
    NextInput(Alone(), inputs, LinkReady(p));
    NextInput(Alone(), inputs + [LinkReady(p)], LinkBroken(p));
  }

  lemma {:induction false} LinkBreaksInRun(inputs: seq<HostLinks.Input>, room: Room, p: MemberId) returns (h: Host)
    requires Comes(Alone(), inputs, room) && p in room.members && p != room.host
    ensures var after := HostLinks.Run(Alone(), inputs + [LinkReady(p)] + [LinkBroken(p)]);
            after.Success? && h == after.value.host
    ensures h.room == room && Good(room) && h.peers.Keys == room.members.Keys - {room.host}
    ensures forall q | q in h.peers :: Dead(h.peers, q) <==> q == p
  {
    var before := HostOf(inputs, room);
    LinkBreaksNext(inputs, p);
    LinkBreaks(before, p);
    h := Broken(MadeReady(before, p), p);
  }

  lemma {:induction false} ChatGoesToOthers(room: Room)
    requires Good(room) && room.host == HOST
    ensures var out := Execute(room, HOST, Command.SendChat(All, "h"));
            out.Applied? && out.recipients == room.members.Keys - {HOST}
  {
    ThreeNames();
    ChatIsRouted(room, HOST, All, "h");
  }

  lemma {:induction false} SecondIsSilenced(h: Host)
    requires Good(h.room) && h.room.host == HOST && h.room.members.Keys == {HOST, FIRST, SECOND} && Dead(h.peers, FIRST)
    ensures SECOND in Untold(h, Commanded(HOST, Command.SendChat(All, "h")))
  {
    ThreeNames();
    ChatGoesToOthers(h.room);
    var recipients := h.room.members.Keys - {HOST};
    assert FIRST in recipients && NotReached(h.peers, recipients, SECOND);
    WhoIsUntold(h, HOST, Command.SendChat(All, "h"), SECOND);
  }

  /** What writes to the first guest's link has ended: what the host says to all does not reach the second either. */
  lemma {:induction false} OneBrokenLinkSilencesOthers() returns (h: Host, chat: HostLinks.Input)
    ensures HostLinks.Run(Alone(), LINKED).Success? && h == HostLinks.Run(Alone(), LINKED).value.host
    ensures chat == Commanded(HOST, Command.SendChat(All, "h"))
    ensures SECOND in h.peers && !Dead(h.peers, SECOND) && SECOND in Untold(h, chat)
  {
    ThreeNames();
    GuestsJoin();
    ThreeAreGood();
    h := LinkBreaksInRun(GUESTS, Three(map[]), FIRST);
    chat := Commanded(HOST, Command.SendChat(All, "h"));
    SecondIsSilenced(h);
  }
}
