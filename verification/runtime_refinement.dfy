/**
  The joiners' views against the host's room, over every run of the host's event loop: its room, its links and its own
  transfers, which can make it drop what the room has emitted, and commands it refuses, whose issuers do not wait.
*/
module RuntimeRefinement {
  import opened Wrappers
  import opened RoomProtocol
  import opened RoomAuthority
  import opened FileReceive
  import opened HostLinks
  import opened Mesh
  import opened RoomRefinement
  import Replica

  datatype Runtime = Runtime(host: Host, views: map<MemberId, Replica.View>)

  /** The host handles an input, or a joiner notices that a link to another joiner is up. */
  datatype Turn =
    | HostTurn(input: HostLinks.Input, localName: string, hostTicket: Option<string>)
    | JoinersLinkUp(joiner: MemberId, member: Member)

  /** The joiners an operation is for and who are not told of it. */
  ghost function Untold(h: Host, input: HostLinks.Input): set<MemberId> {
    var op := RoomOp(h.room, input);
    if op.None? || Apply(h.room, op.value).Refused? then {}
    else
      var recipients := Apply(h.room, op.value).recipients;
      set r | r in recipients && r != h.room.host && EventsFor(Dropped(h, input), r) != []
  }

  ghost function ViewsFrom(w: Runtime, op: Op, out: Outcome, localName: string, hostTicket: Option<string>)
    : (views: map<MemberId, Replica.View>)
    requires out.Applied?
    ensures views.Keys == out.room.members.Keys - {out.room.host}
  {
    map r | r in out.room.members.Keys - {out.room.host} ::
      ViewAfter(RoomRefinement.World(w.host.room, w.views), op, out, localName, hostTicket, r)
  }

  /** The issuer of a command that is sent; what is not valid is not. */
  predicate Sent(w: Runtime, op: Op) {
    op.Issue? && op.actor in w.views && ValidCommand(op.command).Valid?
  }

  /** The joiners' views after an input. A command's issuer makes its own effect whatever the host answers. */
  ghost function ViewsAfter(w: Runtime, input: HostLinks.Input, localName: string, hostTicket: Option<string>)
    : map<MemberId, Replica.View>
  {
    var op := RoomOp(w.host.room, input);
    if op.None? then w.views
    else
      var out := Apply(w.host.room, op.value);
      if out.Applied?
      then ViewsFrom(w, op.value, out.(recipients := out.recipients - Untold(w.host, input)), localName, hostTicket)
      else RefusedViews(w, op.value, localName)
  }

  function RefusedViews(w: Runtime, op: Op, localName: string): map<MemberId, Replica.View> {
    if !Sent(w, op) then w.views
    else w.views[op.actor := Replica.OwnEffect(w.views[op.actor], op.actor, localName, op.command)]
  }

  /** A joiner takes a linked member it does not know for a member of the room. */
  function Linked(v: Replica.View, member: Member): Replica.View {
    v.(members := if member.id in v.members then v.members else v.members[member.id := member],
       links := v.links + {member.id})
  }

  ghost function RuntimeStep(w: Runtime, turn: Turn): Result<Runtime, LinkError> {
    match turn
    case HostTurn(input, localName, hostTicket) =>
      (match HostLinks.Step(w.host, input)
       case Failure(error) => Failure(error)
       case Success(host) => Success(Runtime(host, ViewsAfter(w, input, localName, hostTicket))))
    case JoinersLinkUp(joiner, member) =>
      Success(if joiner in w.views then w.(views := w.views[joiner := Linked(w.views[joiner], member)]) else w)
  }

  /** Every joiner's view is right: in all that `Mirrors` asks for, or in all but sizes and transfers. */
  ghost predicate InStep(w: Runtime, exact: bool) {
    Faithful(RoomRefinement.World(w.host.room, w.views), exact)
  }

  // ----- when a turn does no harm -----

  /** Missing the announcement of this command leaves a view right. */
  ghost predicate Spared(room: Room, c: Command, exact: bool) {
    match c
    case UpdateChannelTransfer(channel, size, offer) =>
      exact && channel in room.channels ==>
        room.channels[channel].size == size && room.channels[channel].transfer == Some(offer)
    case SendChat(_, _) => true
    case AcceptChannel(_) => true
    case SendChannelData(_, _) => true
    case _ => false
  }

  ghost predicate SoundInput(w: Runtime, input: HostLinks.Input, exact: bool) {
    var op := RoomOp(w.host.room, input);
    op.Some? ==>
      if Apply(w.host.room, op.value).Applied?
      then Untold(w.host, input) == {} || (op.value.Issue? && Spared(w.host.room, op.value.command, exact))
      else Sent(w, op.value) ==> Harmless(w.host.room, op.value.actor, op.value.command, exact)
  }

  /**
    Nobody misses what its view needs, a refused command of a joiner's was harmless, and a joiner is linked to members
    only.
  */
  ghost predicate Sound(w: Runtime, turn: Turn, exact: bool) {
    match turn
    case HostTurn(input, _, _) => SoundInput(w, input, exact)
    case JoinersLinkUp(joiner, member) => joiner in w.views ==> member.id in w.host.room.members
  }

  // ----- who is not told -----

  lemma AllToldUnlessCommanded(h: Host, input: HostLinks.Input)
    requires !input.Commanded?
    ensures Untold(h, input) == {}
  {
    assert Dropped(h, input) == [];
  }

  lemma {:induction false} UntoldOfCommand(h: Host, actor: MemberId, command: Command, r: MemberId)
    ensures r in Untold(h, Commanded(actor, command)) <==>
            && Execute(h.room, actor, command).Applied? && r != h.room.host
            && r in Execute(h.room, actor, command).recipients
            && EventsFor(Dropped(h, Commanded(actor, command)), r) != []
  {
    var op := RoomOp(h.room, Commanded(actor, command));
    assert op == Some(Issue(actor, command)) && Apply(h.room, op.value) == Execute(h.room, actor, command);
  }

  lemma WhenFaulted(h: Host, actor: MemberId, command: Command)
    requires Good(h.room) && Execute(h.room, actor, command).Applied?
    ensures Faulted(h, Commanded(actor, command)) <==>
            Faults(Execute(h.room, actor, command).room, Providers(h.peers), h.files, actor, command)
  {
    WhenServingFaults(h.room, actor, command, Providers(h.peers), h.files,
                      Cut(h.peers, Announced(Execute(h.room, actor, command))));
  }

  /** When a joiner is not told of a command: when serving it faults, or its own or an earlier link is dead. */
  lemma {:induction false} WhoIsUntold(h: Host, actor: MemberId, command: Command, r: MemberId)
    requires Good(h.room) && Execute(h.room, actor, command).Applied?
    ensures var out := Execute(h.room, actor, command);
            r in Untold(h, Commanded(actor, command)) <==>
            && r in out.recipients && r != h.room.host
            && (|| Faults(out.room, Providers(h.peers), h.files, actor, command)
                || NotReached(h.peers, out.recipients, r))
  {
    UntoldOfCommand(h, actor, command, r);
    WhoIsNotTold(h, actor, command, r);
    WhenFaulted(h, actor, command);
  }

  /** The room after an operation, which a refusal leaves as it was. */
  function RoomAfter(room: Room, op: Option<Op>): Room {
    if op.None? || Apply(room, op.value).Refused? then room else Apply(room, op.value).room
  }

  lemma CommandedRoom(h: Host, actor: MemberId, c: Command)
    ensures Obeyed(h, actor, c).room == RoomAfter(h.room, Some(Issue(actor, c)))
  {
  }

  lemma PreparedRoom(h: Host, c: Command)
    requires Prepared(h, c).Success?
    ensures Prepared(h, c).value.room == RoomAfter(h.room, Some(Issue(h.room.host, c)))
  {
  }

  lemma {:induction false} AnnouncingRoom(h: Host, input: HostLinks.Input)
    requires AllOrNothing(input) && HostLinks.Step(h, input).Success?
    ensures HostLinks.Step(h, input).value.room == RoomAfter(h.room, RoomOp(h.room, input))
  {
    if input.Connect? {
      ConnectShape(h, input);
      ConnectedShape(h, input.name, input.fingerprint, input.ticket);
    } else if input.Gone? {
      GoneShape(h, input);
    } else {
      PreparedShape(h, input);
      PreparedRoom(h, PreparedCommand(input));
    }
  }

  lemma {:induction false} RoomFollows(h: Host, input: HostLinks.Input)
    requires HostLinks.Step(h, input).Success?
    ensures HostLinks.Step(h, input).value.room == RoomAfter(h.room, RoomOp(h.room, input))
  {
    if input.Commanded? {
      CommandedRoom(h, input.actor, input.command);
    } else if AllOrNothing(input) {
      AnnouncingRoom(h, input);
    }
  }

  // ----- one view -----

  lemma UnheardUpdate(host: map<ChannelId, Channel>, r: MemberId, seen: map<ChannelId, Replica.JoinChannel>,
                      channel: ChannelId, size: Option<nat>, offer: TransferOffer, exact: bool)
    requires SameChannels(host, r, seen, exact) && channel in host && r in host[channel].participants
    ensures SameChannels(host[channel := host[channel].(size := size, transfer := Some(offer))], r, seen, exact) <==>
              (exact ==> host[channel].size == size && host[channel].transfer == Some(offer))
  {
    var after := host[channel := host[channel].(size := size, transfer := Some(offer))];
    assert channel in seen;
    assert SameChannel(host[channel], seen[channel], exact);
    assert forall c | c in seen && c != channel :: after[c] == host[c];
  }

  lemma UnheardDeparture(host: map<ChannelId, Channel>, r: MemberId, seen: map<ChannelId, Replica.JoinChannel>,
                         channel: ChannelId, member: MemberId, exact: bool)
    requires SameChannels(host, r, seen, exact) && channel in host
    requires r in host[channel].participants && member in host[channel].participants && r != member
    ensures !SameChannels(LeaveChannel(host, channel, member), r, seen, exact)
  {
    assert channel in seen;
    assert SameChannel(host[channel], seen[channel], exact);
    if channel in LeaveChannel(host, channel, member) {
      assert member !in LeaveChannel(host, channel, member)[channel].participants;
      assert !SameChannel(LeaveChannel(host, channel, member)[channel], seen[channel], exact);
    }
  }

  lemma UpdateOnly(room: Room, actor: MemberId, c: Command)
    requires c.UpdateChannelTransfer? && Execute(room, actor, c).Applied?
    ensures c.channel in room.channels
    ensures Execute(room, actor, c).room
         == room.(channels := room.channels[c.channel :=
              room.channels[c.channel].(size := c.size, transfer := Some(c.offer))])
    ensures Execute(room, actor, c).recipients == (room.channels[c.channel].participants - {actor}) * room.members.Keys
  {
  }

  lemma {:induction false} LeavingOnly(room: Room, actor: MemberId, c: Command)
    requires (c.CloseChannel? || c.RejectChannel?) && Execute(room, actor, c).Applied?
    ensures c.channel in room.channels && actor in room.channels[c.channel].participants
    ensures Execute(room, actor, c).room == room.(channels := LeaveChannel(room.channels, c.channel, actor))
    ensures Execute(room, actor, c).recipients == (room.channels[c.channel].participants - {actor}) * room.members.Keys
  {
  }

  lemma OpeningOnly(room: Room, actor: MemberId, c: Command)
    requires c.OpenChannel? && Execute(room, actor, c).Applied?
    ensures c.channel !in room.channels && c.channel in Execute(room, actor, c).room.channels
    ensures Execute(room, actor, c).recipients ==
            Execute(room, actor, c).room.channels[c.channel].participants - {actor}
  {
    var event := ChannelOpened(c.channel, c.kind, actor, room.members[actor].name, c.to, c.name, c.size, c.mime,
                               c.transfer);
    OpenedAs(room, event);
  }

  lemma QuietOnly(room: Room, actor: MemberId, c: Command)
    requires (c.SendChat? || c.AcceptChannel? || c.SendChannelData?) && Execute(room, actor, c).Applied?
    ensures Execute(room, actor, c).room == room
  {
  }

  /** The view of a joiner that a command is for and that does not hear of it. */
  lemma {:induction false} UntoldView(room: Room, actor: MemberId, c: Command, r: MemberId, v: Replica.View,
                                      exact: bool)
    requires Mirrors(room, r, v, exact) && Execute(room, actor, c).Applied? && r in Execute(room, actor, c).recipients
    ensures Mirrors(Execute(room, actor, c).room, r, v, exact) <==> Spared(room, c, exact)
  {
    var after := Execute(room, actor, c).room;
    if c.UpdateChannelTransfer? {
      UpdateOnly(room, actor, c);
      UnheardUpdate(room.channels, r, v.channels, c.channel, c.size, c.offer, exact);
    } else if c.OpenChannel? {
      OpeningOnly(room, actor, c);
      assert c.channel !in v.channels && r in after.channels[c.channel].participants;
    } else if c.CloseChannel? || c.RejectChannel? {
      LeavingOnly(room, actor, c);
      UnheardDeparture(room.channels, r, v.channels, c.channel, actor, exact);
    } else {
      QuietOnly(room, actor, c);
    }
  }

  // ----- one input -----

  /** The view of a joiner that is told, or that an operation is not for, is right whoever else is told. */
  lemma {:induction false} ToldView(w: Runtime, op: Op, untold: set<MemberId>, localName: string,
                                    hostTicket: Option<string>, r: MemberId, exact: bool)
    requires InStep(w, exact) && Apply(w.host.room, op).Applied? && r !in untold
    requires var room' := Apply(w.host.room, op).room; r in room'.members && r != room'.host
    ensures var out := Apply(w.host.room, op);
            var told := out.(recipients := out.recipients - untold);
            Mirrors(out.room, r,
              ViewAfter(RoomRefinement.World(w.host.room, w.views), op, told, localName, hostTicket, r), exact)
  {
    ViewAfterMirrors(RoomRefinement.World(w.host.room, w.views), op, localName, hostTicket, r, exact);
  }

  lemma {:induction false} UntoldIsLeftAlone(w: Runtime, op: Op, untold: set<MemberId>, localName: string,
                                             hostTicket: Option<string>, r: MemberId, exact: bool)
    requires InStep(w, exact) && op.Issue? && Apply(w.host.room, op).Applied?
    requires r in untold && r in Apply(w.host.room, op).recipients && r != w.host.room.host
    ensures var out := Apply(w.host.room, op);
            var told := out.(recipients := out.recipients - untold);
            r in w.views && r in out.room.members && r != out.room.host
            && ViewAfter(RoomRefinement.World(w.host.room, w.views), op, told, localName, hostTicket, r) == w.views[r]
  {
    ApplyGood(w.host.room, op);
    ExecuteKeepsMembers(w.host.room, op.actor, op.command);
  }

  /** A room operation of which some joiners are not told. */
  ghost predicate Announces(w: Runtime, op: Op, out: Outcome, untold: set<MemberId>) {
    && out == Apply(w.host.room, op) && out.Applied?
    && untold <= out.recipients - {w.host.room.host}
    && (untold != {} ==> op.Issue?)
  }

  lemma {:induction false} AppliedView(w: Runtime, op: Op, out: Outcome, untold: set<MemberId>, localName: string,
                                       hostTicket: Option<string>, r: MemberId, exact: bool)
    requires InStep(w, exact) && Announces(w, op, out, untold) && r in out.room.members && r != out.room.host
    ensures var told := out.(recipients := out.recipients - untold);
            var view := ViewAfter(RoomRefinement.World(w.host.room, w.views), op, told, localName, hostTicket, r);
            Mirrors(out.room, r, view, exact) <==>
            (r in untold ==> op.Issue? && Spared(w.host.room, op.command, exact))
  {
    if r in untold {
      UntoldIsLeftAlone(w, op, untold, localName, hostTicket, r, exact);
      UntoldView(w.host.room, op.actor, op.command, r, w.views[r], exact);
    } else {
      ToldView(w, op, untold, localName, hostTicket, r, exact);
    }
  }

  lemma {:induction false} AppliedViews(w: Runtime, op: Op, out: Outcome, untold: set<MemberId>, localName: string,
                                        hostTicket: Option<string>, views: map<MemberId, Replica.View>, exact: bool)
    requires InStep(w, exact) && Announces(w, op, out, untold)
    requires views == ViewsFrom(w, op, out.(recipients := out.recipients - untold), localName, hostTicket)
    ensures (forall r | r in views :: Mirrors(out.room, r, views[r], exact)) <==>
            (untold == {} || (op.Issue? && Spared(w.host.room, op.command, exact)))
  {
    forall r | r in views ensures Mirrors(out.room, r, views[r], exact) <==>
                                  (r in untold ==> op.Issue? && Spared(w.host.room, op.command, exact)) {
      AppliedView(w, op, out, untold, localName, hostTicket, r, exact);
    }
    if r :| r in untold {
      UntoldIsLeftAlone(w, op, untold, localName, hostTicket, r, exact);
      assert r in views;
    }
  }

  lemma {:induction false} AnnouncesItsOp(w: Runtime, input: HostLinks.Input)
    requires RoomOp(w.host.room, input).Some? && Apply(w.host.room, RoomOp(w.host.room, input).value).Applied?
    ensures var op := RoomOp(w.host.room, input).value;
            Announces(w, op, Apply(w.host.room, op), Untold(w.host, input))
  {
    if !input.Commanded? {
      AllToldUnlessCommanded(w.host, input);
    }
  }

  lemma {:induction false} AppliedShape(w: Runtime, input: HostLinks.Input, localName: string,
                                        hostTicket: Option<string>, op: Op, exact: bool)
    requires RoomOp(w.host.room, input) == Some(op) && Apply(w.host.room, op).Applied?
    ensures var out, untold := Apply(w.host.room, op), Untold(w.host, input);
            && ViewsAfter(w, input, localName, hostTicket)
                 == ViewsFrom(w, op, out.(recipients := out.recipients - untold), localName, hostTicket)
            && (SoundInput(w, input, exact) <==>
                untold == {} || (op.Issue? && Spared(w.host.room, op.command, exact)))
  {
  }

  lemma GoodAfter(room: Room, op: Op)
    requires Good(room) && Apply(room, op).Applied?
    ensures Good(Apply(room, op).room)
  {
    ApplyGood(room, op);
  }

  lemma {:induction false} AnnouncedStep(w: Runtime, op: Op, out: Outcome, untold: set<MemberId>, localName: string,
                                         hostTicket: Option<string>, after: Runtime, exact: bool)
    requires InStep(w, exact) && Announces(w, op, out, untold) && after.host.room == out.room
    requires after.views == ViewsFrom(w, op, out.(recipients := out.recipients - untold), localName, hostTicket)
    ensures InStep(after, exact) <==> (untold == {} || (op.Issue? && Spared(w.host.room, op.command, exact)))
  {
    AppliedViews(w, op, out, untold, localName, hostTicket, after.views, exact);
    GoodAfter(w.host.room, op);
  }

  lemma {:induction false} AppliedStep(w: Runtime, input: HostLinks.Input, localName: string,
                                       hostTicket: Option<string>, exact: bool, op: Op, after: Runtime)
    requires InStep(w, exact) && RoomOp(w.host.room, input) == Some(op) && Apply(w.host.room, op).Applied?
    requires after.host.room == Apply(w.host.room, op).room
    requires after.views == ViewsAfter(w, input, localName, hostTicket)
    ensures InStep(after, exact) <==> SoundInput(w, input, exact)
  {
    AppliedShape(w, input, localName, hostTicket, op, exact);
    AnnouncesItsOp(w, input);
    AnnouncedStep(w, op, Apply(w.host.room, op), Untold(w.host, input), localName, hostTicket, after, exact);
  }

  lemma OneViewChanges(w: Runtime, r: MemberId, v: Replica.View, exact: bool)
    requires InStep(w, exact) && r in w.views
    ensures InStep(w.(views := w.views[r := v]), exact) <==> Mirrors(w.host.room, r, v, exact)
  {
    var views := w.views[r := v];
    assert views.Keys == w.views.Keys;
    assert r in views && views[r] == v;
  }

  lemma RefusedShape(w: Runtime, input: HostLinks.Input, op: Op, exact: bool)
    requires RoomOp(w.host.room, input) == Some(op) && Apply(w.host.room, op).Refused?
    ensures SoundInput(w, input, exact) <==> (Sent(w, op) ==> Harmless(w.host.room, op.actor, op.command, exact))
  {
  }

  lemma RefusedIssue(room: Room, op: Op)
    requires op.Issue? && Apply(room, op).Refused?
    ensures Execute(room, op.actor, op.command).Refused?
  {
  }

  lemma {:induction false} RefusedStep(w: Runtime, input: HostLinks.Input, localName: string, exact: bool, op: Op,
                                       after: Runtime)
    requires InStep(w, exact) && RoomOp(w.host.room, input) == Some(op) && Apply(w.host.room, op).Refused?
    requires after.host.room == w.host.room && after.views == RefusedViews(w, op, localName)
    ensures InStep(after, exact) <==> SoundInput(w, input, exact)
  {
    RefusedShape(w, input, op, exact);
    if Sent(w, op) {
      var v := Replica.OwnEffect(w.views[op.actor], op.actor, localName, op.command);
      OneViewChanges(w, op.actor, v, exact);
      RefusedIssue(w.host.room, op);
      RefusedCommand(w.host.room, op.actor, w.views[op.actor], localName, op.command, exact);
    }
  }

  lemma {:induction false} LinkedStep(w: Runtime, joiner: MemberId, member: Member, exact: bool)
    requires InStep(w, exact)
    ensures InStep(RuntimeStep(w, JoinersLinkUp(joiner, member)).value, exact) <==>
            (joiner in w.views ==> member.id in w.host.room.members)
  {
    if joiner in w.views {
      OneViewChanges(w, joiner, Linked(w.views[joiner], member), exact);
      assert Mirrors(w.host.room, joiner, w.views[joiner], exact);
    }
  }

  lemma {:induction false} InputStep(w: Runtime, input: HostLinks.Input, localName: string,
                                     hostTicket: Option<string>, exact: bool, after: Runtime)
    requires InStep(w, exact) && RuntimeStep(w, HostTurn(input, localName, hostTicket)) == Success(after)
    ensures InStep(after, exact) <==> SoundInput(w, input, exact)
  {
    var op := RoomOp(w.host.room, input);
    RoomFollows(w.host, input);
    if op.Some? {
      if Apply(w.host.room, op.value).Applied? {
        AppliedStep(w, input, localName, hostTicket, exact, op.value, after);
      } else {
        RefusedStep(w, input, localName, exact, op.value, after);
      }
    }
  }

  /**
    One turn of the host's loop, with its effects on the joiners at its place in the host's order, or of a joiner's:
    from right views it leads to right views exactly when it is sound, in all that views hold (`exact`) or in all but
    the sizes and transfers of channels.
  */
  lemma {:induction false} StepIsFaithful(w: Runtime, turn: Turn, exact: bool)
    requires InStep(w, exact) && RuntimeStep(w, turn).Success?
    ensures InStep(RuntimeStep(w, turn).value, exact) <==> Sound(w, turn, exact)
  {
    match turn
    case HostTurn(input, localName, hostTicket) =>
      InputStep(w, input, localName, hostTicket, exact, RuntimeStep(w, turn).value);
    case JoinersLinkUp(joiner, member) =>
      LinkedStep(w, joiner, member, exact);
  }

  /** A command that a joiner may miss without being wrong about more than a size or a transfer. */
  predicate Missable(c: Command) {
    !c.OpenChannel? && !c.RejectChannel? && !c.CloseChannel?
  }

  /** A joiner's opening of a channel is refused, and the host does not have the same channel but for size and offer. */
  ghost predicate MisleadingOpen(w: Runtime, actor: MemberId, c: Command) {
    && c.OpenChannel? && ValidCommand(c).Valid? && actor in w.views && Execute(w.host.room, actor, c).Refused?
    && (c.to.To? ==> c.to.member in w.host.room.members)
    && (c.channel in w.host.room.channels ==>
          var host, own := w.host.room.channels[c.channel], OwnChannel(w.host.room, actor, c);
          host.opener != actor || host.kind != c.kind || host.participants != own.participants || host.name != c.name)
  }

  /**
    Sizes and transfers aside, views stay right unless somebody misses that a channel is opened or left, a refused
    opening misleads its issuer, or a joiner is linked to somebody who is no member.
  */
  lemma {:induction false} StepIsNearlyFaithful(w: Runtime, turn: Turn)
    requires InStep(w, false) && RuntimeStep(w, turn).Success?
    ensures InStep(RuntimeStep(w, turn).value, false) <==>
            match turn
            case HostTurn(input, _, _) =>
              input.Commanded? ==>
                && (Untold(w.host, input) != {} ==> Missable(input.command))
                && !MisleadingOpen(w, input.actor, input.command)
            case JoinersLinkUp(joiner, member) => joiner in w.views ==> member.id in w.host.room.members
  {
    StepIsFaithful(w, turn, false);
    if turn.HostTurn? {
      NearlySound(w, turn.input);
    }
  }

  lemma SparedIsMissable(room: Room, c: Command)
    ensures Spared(room, c, false) <==> Missable(c)
  {
  }

  lemma OnlyOpeningsMislead(w: Runtime, actor: MemberId, c: Command)
    requires !c.OpenChannel?
    ensures Harmless(w.host.room, actor, c, false) && !MisleadingOpen(w, actor, c)
  {
  }

  lemma OpeningMisleads(w: Runtime, actor: MemberId, c: Command)
    requires c.OpenChannel? && ValidCommand(c).Valid? && actor in w.views && Execute(w.host.room, actor, c).Refused?
    requires Good(w.host.room) && actor in w.host.room.members
    ensures Harmless(w.host.room, actor, c, false) <==> !MisleadingOpen(w, actor, c)
  {
    WhyOpenIsRefused(w.host.room, actor, c);
  }

  lemma UntoldOfRefusal(h: Host, actor: MemberId, c: Command)
    requires Execute(h.room, actor, c).Refused?
    ensures Untold(h, Commanded(actor, c)) == {}
  {
    assert RoomOp(h.room, Commanded(actor, c)) == Some(Issue(actor, c));
  }

  lemma {:induction false} HarmlessOrMisleading(w: Runtime, actor: MemberId, c: Command)
    requires InStep(w, false) && Execute(w.host.room, actor, c).Refused?
    ensures (Sent(w, Issue(actor, c)) ==> Harmless(w.host.room, actor, c, false)) <==> !MisleadingOpen(w, actor, c)
    ensures Untold(w.host, Commanded(actor, c)) == {}
  {
    UntoldOfRefusal(w.host, actor, c);
    if !c.OpenChannel? {
      OnlyOpeningsMislead(w, actor, c);
    } else if Sent(w, Issue(actor, c)) {
      assert Mirrors(w.host.room, actor, w.views[actor], false);
      OpeningMisleads(w, actor, c);
    }
  }

  lemma HostSendsNothing(w: Runtime, input: HostLinks.Input)
    requires InStep(w, false) && !input.Commanded?
    ensures SoundInput(w, input, false)
  {
    AllToldUnlessCommanded(w.host, input);
    assert w.host.room.host !in w.views;
  }

  lemma {:induction false} NearlySound(w: Runtime, input: HostLinks.Input)
    requires InStep(w, false)
    ensures SoundInput(w, input, false) <==>
            (input.Commanded? ==>
              && (Untold(w.host, input) != {} ==> Missable(input.command))
              && !MisleadingOpen(w, input.actor, input.command))
  {
    if !input.Commanded? {
      HostSendsNothing(w, input);
    } else if Execute(w.host.room, input.actor, input.command).Applied? {
      AppliedShape(w, input, "", None, Issue(input.actor, input.command), false);
      SparedIsMissable(w.host.room, input.command);
    } else {
      RefusedShape(w, input, Issue(input.actor, input.command), false);
      HarmlessOrMisleading(w, input.actor, input.command);
    }
  }

  // ----- whole runs -----

  ghost function RuntimeRun(room: Room, turns: seq<Turn>): Result<Runtime, LinkError> {
    if turns == [] then Success(Runtime(Host(room, map[], HostFiles({}, map[])), map[]))
    else
      var n := |turns| - 1;
      var before := RuntimeRun(room, turns[..n]);
      if before.Failure? then before else RuntimeStep(before.value, turns[n])
  }

  /** All views are right after every turn of a run. */
  ghost predicate AlwaysInStep(room: Room, turns: seq<Turn>, exact: bool)
    requires RuntimeRun(room, turns).Success?
  {
    && InStep(RuntimeRun(room, turns).value, exact)
    && (turns != [] ==> AlwaysInStep(room, turns[..|turns| - 1], exact))
  }

  /** Every turn of a run is sound. */
  ghost predicate AllSound(room: Room, turns: seq<Turn>, exact: bool)
    requires RuntimeRun(room, turns).Success?
  {
    turns != [] ==>
      var n := |turns| - 1;
      AllSound(room, turns[..n], exact) && Sound(RuntimeRun(room, turns[..n]).value, turns[n], exact)
  }

  /**
    For every run from a new room: each joiner's members are the host's, and its channels are exactly the host channels
    it takes part in, with the same opener, kind, participants and name (and, for `exact`, size and transfer), after
    every turn, if and only if every turn is sound.
  */
  lemma {:induction false} EveryRuntimeRun(room: Room, turns: seq<Turn>, exact: bool)
    requires Good(room) && room.members.Keys == {room.host} && RuntimeRun(room, turns).Success?
    ensures AlwaysInStep(room, turns, exact) <==> AllSound(room, turns, exact)
  {
    if turns == [] {
      assert RuntimeRun(room, turns).value.views.Keys == room.members.Keys - {room.host};
    } else {
      var n := |turns| - 1;
      EveryRuntimeRun(room, turns[..n], exact);
      if AlwaysInStep(room, turns[..n], exact) {
        StepIsFaithful(RuntimeRun(room, turns[..n]).value, turns[n], exact);
      }
    }
  }
}
