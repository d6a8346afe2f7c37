/**
  The joiners' views against the host's room, over every run of host operations.
*/
module RoomRefinement {
  import opened Wrappers
  import opened Text
  import opened Ordering
  import opened RoomProtocol
  import opened RoomAuthority
  import Replica

  /**
    The view and the room agree on one channel (the joiner does not keep the mime type); exactly so if they agree also
    on what is to be transferred.
  */
  ghost predicate SameChannel(host: Channel, seen: Replica.JoinChannel, exact: bool) {
    && seen.opener == host.opener && seen.kind == host.kind && seen.participants == host.participants
    && seen.name == host.name && (exact ==> seen.size == host.size && seen.transfer == host.transfer)
  }

  /** Exactly the host channels that member `r` takes part in, and the same about each of them. */
  ghost predicate SameChannels(host: map<ChannelId, Channel>, r: MemberId, seen: map<ChannelId, Replica.JoinChannel>,
                               exact: bool)
  {
    && (forall c :: c in seen <==> c in host && r in host[c].participants)
    && (forall c | c in seen :: SameChannel(host[c], seen[c], exact))
  }

  /** The view of joiner `r` holds every member, and exactly the channels `r` takes part in. */
  ghost predicate Mirrors(room: Room, r: MemberId, v: Replica.View, exact: bool) {
    && v.self == Some(r)
    && v.members == room.members
    && SameChannels(room.channels, r, v.channels, exact)
  }

  datatype World = World(room: Room, views: map<MemberId, Replica.View>)

  /** A newcomer's view once it has read the welcome and the snapshot. */
  function Greeted(room: Room, joiner: MemberId, hostTicket: Option<string>): Replica.View {
    var greeting := Greeting(room, joiner);
    Replica.ApplyEvent(Replica.ApplyEvent(Replica.Blank(hostTicket), greeting[0]), greeting[1])
  }

  /**
    The view of joiner `r` after an accepted operation: a newcomer has been greeted, the issuer of a command has made
    its own effect, and whoever the event was routed to has applied it.
  */
  function ViewAfter(w: World, op: Op, out: Outcome, localName: string, hostTicket: Option<string>, r: MemberId)
    : Replica.View
    requires out.Applied?
  {
    if r !in w.views then Greeted(out.room, r, hostTicket)
    else if op.Issue? && r == op.actor then Replica.OwnEffect(w.views[r], r, localName, op.command)
    else if r in out.recipients then Replica.ApplyEvent(w.views[r], out.event)
    else w.views[r]
  }

  /**
    One host operation with its effects on the joiners, each at the operation's place in the host's order. A refused
    operation has no effect here; `RefusedOpen` and `RefusedUpdate` say what it may do to its issuer.
  */
  function Step(w: World, op: Op, localName: string, hostTicket: Option<string>): World {
    var out := Apply(w.room, op);
    if out.Refused? then w
    else
      World(out.room,
        map r | r in out.room.members.Keys - {out.room.host} :: ViewAfter(w, op, out, localName, hostTicket, r))
  }

  datatype Input = Input(op: Op, localName: string, hostTicket: Option<string>)

  function Run(w: World, inputs: seq<Input>): World {
    if inputs == [] then w
    else
      var last := inputs[|inputs| - 1];
      Step(Run(w, inputs[..|inputs| - 1]), last.op, last.localName, last.hostTicket)
  }

  ghost predicate Faithful(w: World, exact: bool) {
    && Good(w.room)
    && w.views.Keys == w.room.members.Keys - {w.room.host}
    && forall r | r in w.views :: Mirrors(w.room, r, w.views[r], exact)
  }

  // ----- what one event does to one faithful view -----

  lemma {:induction false} SnapshotMapOf(members: map<MemberId, Member>, ids: seq<MemberId>)
    requires forall m | m in members :: members[m].id == m
    requires forall i | 0 <= i < |ids| :: ids[i] in members
    requires forall i, j | 0 <= i < j < |ids| :: ids[i] != ids[j]
    ensures var listed := seq(|ids|, i requires 0 <= i < |ids| => members[ids[i]]);
            Replica.SnapshotMap(listed) == map m | m in members && m in ids :: members[m]
  {
    var listed := seq(|ids|, i requires 0 <= i < |ids| => members[ids[i]]);
    if ids != [] {
      var n := |ids| - 1;
      SnapshotMapOf(members, ids[..n]);
      assert listed[..n] == seq(n, i requires 0 <= i < n => members[ids[..n][i]]);
      assert forall m :: m in ids <==> m in ids[..n] || m == ids[n];
    }
  }

  lemma SnapshotRestores(members: map<MemberId, Member>)
    requires forall m | m in members :: members[m].id == m
    ensures Replica.SnapshotMap(Snapshot(members)) == members
  {
    var ids := Sorted(members.Keys);
    SortedAscends(members.Keys);
    AscendingDistinct(ids);
    SnapshotMapOf(members, ids);
    assert Snapshot(members) == seq(|ids|, i requires 0 <= i < |ids| => members[ids[i]]);
  }

  lemma {:induction false} JoinerGreeted(room: Room, joiner: MemberId, hostTicket: Option<string>, exact: bool)
    requires Good(room)
    requires forall c | c in room.channels :: joiner !in room.channels[c].participants
    ensures Mirrors(room, joiner, Greeted(room, joiner, hostTicket), exact)
  {
    SnapshotRestores(room.members);
    var welcome := Greeting(room, joiner)[0];
    assert Replica.ApplyEvent(Replica.Blank(hostTicket), welcome).channels == map[];
  }

  lemma JoinSeen(room: Room, name: string, fingerprint: Option<string>, r: MemberId, v: Replica.View, exact: bool)
    requires Mirrors(room, r, v, exact) && JoinRoom(room, name, fingerprint).Applied?
    ensures var out := JoinRoom(room, name, fingerprint); Mirrors(out.room, r, Replica.ApplyEvent(v, out.event), exact)
  {
  }

  lemma MemberLeftSeen(room: Room, member: MemberId, reason: Option<string>, r: MemberId, v: Replica.View, exact: bool)
    requires Mirrors(room, r, v, exact) && r != member && LeaveRoom(room, member, reason).Applied?
    ensures var out := LeaveRoom(room, member, reason); Mirrors(out.room, r, Replica.ApplyEvent(v, out.event), exact)
  {
    LeaveSeen(room.channels, r, v.channels, member, exact);
    var seen := Replica.ApplyEvent(v, MemberLeft(member, reason));
    assert seen.channels == Replica.Without(v.self, v.channels, member);
  }

  lemma LeaveSeen(host: map<ChannelId, Channel>, r: MemberId, seen: map<ChannelId, Replica.JoinChannel>,
                  member: MemberId, exact: bool)
    requires SameChannels(host, r, seen, exact) && r != member
    ensures SameChannels(Without(host, member), r, Replica.Without(Some(r), seen, member), exact)
  {
    var host', seen' := Without(host, member), Replica.Without(Some(r), seen, member);
    forall c ensures c in seen' <==> c in host' && r in host'[c].participants {
      assert c in seen <==> c in host && r in host[c].participants;
    }
    forall c | c in seen' ensures SameChannel(host'[c], seen'[c], exact) {
      assert SameChannel(host[c], seen[c], exact);
    }
  }

  lemma OpenedSeen(host: map<ChannelId, Channel>, r: MemberId, seen: map<ChannelId, Replica.JoinChannel>,
                   channel: ChannelId, created: Channel, own: Replica.JoinChannel, exact: bool)
    requires SameChannels(host, r, seen, exact) && channel !in host && SameChannel(created, own, exact)
    ensures r in created.participants ==> SameChannels(host[channel := created], r, seen[channel := own], exact)
    ensures r !in created.participants ==> SameChannels(host[channel := created], r, seen, exact)
  {
  }

  lemma OpenedAs(room: Room, event: Event)
    requires event.ChannelOpened? && Open(room, event).Applied?
    ensures var participants := Participants(room.members.Keys, event.from, event.to);
            var created :=
              Channel(event.from, event.kind, participants, event.name, event.size, event.mime, event.transfer);
            && event.channel !in room.channels && event.from in participants
            && Open(room, event) ==
               Applied(room.(channels := room.channels[event.channel := created]), participants - {event.from}, event)
    ensures Replica.EventParticipants(room.members, event.from, event.to)
         == Some(Participants(room.members.Keys, event.from, event.to))
  {
  }

  lemma {:induction false} OpenSeen(room: Room, event: Event, r: MemberId, v: Replica.View, exact: bool)
    requires Mirrors(room, r, v, exact) && event.ChannelOpened? && Open(room, event).Applied?
    ensures var out := Open(room, event);
            Mirrors(out.room, r,
              if r in out.recipients || r == event.from then Replica.ApplyEvent(v, event) else v, exact)
  {
    OpenedAs(room, event);
    var participants := Participants(room.members.Keys, event.from, event.to);
    var created := Channel(event.from, event.kind, participants, event.name, event.size, event.mime, event.transfer);
    var own := Replica.JoinChannel(event.from, event.kind, participants, event.name, event.size, event.transfer,
                                   v.self == Some(event.from));
    OpenedSeen(room.channels, r, v.channels, event.channel, created, own, exact);
  }

  lemma UpdateSeen(host: map<ChannelId, Channel>, r: MemberId, v: Replica.View, channel: ChannelId,
                   size: Option<nat>, offer: TransferOffer, exact: bool)
    requires SameChannels(host, r, v.channels, exact) && channel in host
    ensures SameChannels(host[channel := host[channel].(size := size, transfer := Some(offer))], r,
              Replica.SetTransfer(v, channel, size, offer).channels, exact)
  {
  }

  lemma DropOutSeen(host: map<ChannelId, Channel>, r: MemberId, seen: map<ChannelId, Replica.JoinChannel>,
                    channel: ChannelId, member: MemberId, exact: bool)
    requires SameChannels(host, r, seen, exact) && channel in host
    ensures r != member ==>
      SameChannels(LeaveChannel(host, channel, member), r, Replica.LeaveChannel(Some(r), seen, channel, member), exact)
    ensures r == member ==> SameChannels(LeaveChannel(host, channel, member), r, seen - {channel}, exact)
  {
  }

  /** The view of `r` after a command by `actor` that the host accepted. */
  ghost function SeenAfter(out: Outcome, actor: MemberId, command: Command, localName: string,
                           r: MemberId, v: Replica.View): Replica.View
    requires out.Applied?
  {
    if r == actor then Replica.OwnEffect(v, actor, localName, command)
    else if r in out.recipients then Replica.ApplyEvent(v, out.event)
    else v
  }

  /** `OnChannel` with the sender leaving, on the maps of channels. */
  lemma {:induction false} DroppedOutSeen(room: Room, actor: MemberId, channel: ChannelId, event: Event, r: MemberId,
                                          v: Replica.View, exact: bool)
    requires Good(room) && r in room.members && Mirrors(room, r, v, exact)
    requires OnChannel(room, actor, channel, event, true).Applied?
    ensures var out := OnChannel(room, actor, channel, event, true);
            Mirrors(out.room, r,
              if r == actor then v.(channels := v.channels - {channel})
              else if r in out.recipients then Replica.DropOut(v, channel, actor)
              else v, exact)
  {
    DropOutSeen(room.channels, r, v.channels, channel, actor, exact);
    if r !in room.channels[channel].participants {
      assert channel !in v.channels;
    }
  }

  lemma {:induction false} OnChannelSeen(room: Room, actor: MemberId, command: Command, localName: string, event: Event,
                      r: MemberId, v: Replica.View, exact: bool)
    requires Good(room) && r in room.members && actor in room.members && Mirrors(room, r, v, exact)
    requires command.RejectChannel? || command.CloseChannel?
    requires event == if command.RejectChannel?
                      then ChannelRejected(command.channel, actor, room.members[actor].name, command.reason)
                      else ChannelClosed(command.channel, actor, room.members[actor].name, command.reason)
    requires OnChannel(room, actor, command.channel, event, true).Applied?
    ensures var out := OnChannel(room, actor, command.channel, event, true);
            Mirrors(out.room, r, SeenAfter(out, actor, command, localName, r, v), exact)
  {
    DroppedOutSeen(room, actor, command.channel, event, r, v, exact);
    SeenDropOut(OnChannel(room, actor, command.channel, event, true), actor, command, localName, r, v);
  }

  lemma SeenDropOut(out: Outcome, actor: MemberId, command: Command, localName: string, r: MemberId, v: Replica.View)
    requires out.Applied? && (command.RejectChannel? || command.CloseChannel?)
    requires out.event.ChannelRejected? || out.event.ChannelClosed?
    requires out.event.channel == command.channel && out.event.member == actor
    ensures SeenAfter(out, actor, command, localName, r, v) ==
              if r == actor then v.(channels := v.channels - {command.channel})
              else if r in out.recipients then Replica.DropOut(v, command.channel, actor)
              else v
  {
  }

  /** Chat, acceptances and channel data change neither the room nor anybody's view. */
  lemma QuietSeen(room: Room, actor: MemberId, command: Command, localName: string, r: MemberId, v: Replica.View,
                  exact: bool)
    requires Mirrors(room, r, v, exact) && Execute(room, actor, command).Applied?
    requires command.SendChat? || command.AcceptChannel? || command.SendChannelData?
    ensures var out := Execute(room, actor, command);
            Mirrors(out.room, r, SeenAfter(out, actor, command, localName, r, v), exact)
  {
    var out := Execute(room, actor, command);
    assert out.room == room;
    assert out.event.ChatReceived? || out.event.ChannelAccepted? || out.event.ChannelData?;
    assert Replica.ApplyEvent(v, out.event) == v;
  }

  lemma OpenCommandSeen(room: Room, actor: MemberId, command: Command, localName: string, r: MemberId,
                        v: Replica.View, exact: bool)
    requires Mirrors(room, r, v, exact) && command.OpenChannel? && Execute(room, actor, command).Applied?
    ensures var out := Execute(room, actor, command);
            Mirrors(out.room, r, SeenAfter(out, actor, command, localName, r, v), exact)
  {
    var event := ChannelOpened(command.channel, command.kind, actor, room.members[actor].name, command.to, command.name,
                               command.size, command.mime, command.transfer);
    OpenSeen(room, event, r, v, exact);
    assert Replica.OwnEffect(v, actor, localName, command) == Replica.ApplyEvent(v, event);
  }

  lemma {:induction false} UpdatedSeen(room: Room, actor: MemberId, channel: ChannelId, size: Option<nat>,
                                       offer: TransferOffer,
                    r: MemberId, v: Replica.View, exact: bool)
    requires Good(room) && r in room.members && Mirrors(room, r, v, exact)
    requires Update(room, actor, channel, size, offer).Applied?
    ensures var out := Update(room, actor, channel, size, offer);
            Mirrors(out.room, r,
              if r == actor || r in out.recipients then Replica.SetTransfer(v, channel, size, offer) else v, exact)
  {
    UpdateSeen(room.channels, r, v, channel, size, offer, exact);
    if r !in room.channels[channel].participants {
      assert channel !in v.channels;
    }
  }

  lemma {:induction false} UpdateCommandSeen(room: Room, actor: MemberId, command: Command, localName: string,
                                             r: MemberId, v: Replica.View, exact: bool)
    requires Good(room) && r in room.members && Mirrors(room, r, v, exact)
    requires command.UpdateChannelTransfer? && Execute(room, actor, command).Applied?
    ensures var out := Execute(room, actor, command);
            Mirrors(out.room, r, SeenAfter(out, actor, command, localName, r, v), exact)
  {
    var out := Update(room, actor, command.channel, command.size, command.offer);
    assert Execute(room, actor, command) == out;
    UpdatedSeen(room, actor, command.channel, command.size, command.offer, r, v, exact);
    SeenUpdate(out, actor, command, localName, r, v);
  }

  lemma SeenUpdate(out: Outcome, actor: MemberId, command: Command, localName: string, r: MemberId, v: Replica.View)
    requires out.Applied? && command.UpdateChannelTransfer?
    requires out.event == UpdateEvent(command.channel, command.size, command.offer)
    ensures SeenAfter(out, actor, command, localName, r, v) ==
              if r == actor || r in out.recipients
              then Replica.SetTransfer(v, command.channel, command.size, command.offer)
              else v
  {
  }

  lemma {:induction false} CommandSeen(room: Room, actor: MemberId, command: Command, localName: string, r: MemberId,
                                       v: Replica.View, exact: bool)
    requires Good(room) && r in room.members && Mirrors(room, r, v, exact)
    requires Execute(room, actor, command).Applied?
    ensures var out := Execute(room, actor, command);
            Mirrors(out.room, r, SeenAfter(out, actor, command, localName, r, v), exact)
  {
    if command.OpenChannel? {
      OpenCommandSeen(room, actor, command, localName, r, v, exact);
    } else if command.UpdateChannelTransfer? {
      UpdateCommandSeen(room, actor, command, localName, r, v, exact);
    } else if command.RejectChannel? {
      var event := ChannelRejected(command.channel, actor, room.members[actor].name, command.reason);
      OnChannelSeen(room, actor, command, localName, event, r, v, exact);
    } else if command.CloseChannel? {
      var event := ChannelClosed(command.channel, actor, room.members[actor].name, command.reason);
      OnChannelSeen(room, actor, command, localName, event, r, v, exact);
    } else {
      QuietSeen(room, actor, command, localName, r, v, exact);
    }
  }

  // ----- the refinement -----

  lemma {:induction false} IssuedViewMirrors(w: World, op: Op, localName: string, hostTicket: Option<string>,
                                             r: MemberId, exact: bool)
    requires Faithful(w, exact) && op.Issue? && Apply(w.room, op).Applied?
    requires var room' := Apply(w.room, op).room; r in room'.members && r != room'.host
    ensures var out := Apply(w.room, op); Mirrors(out.room, r, ViewAfter(w, op, out, localName, hostTicket, r), exact)
  {
    ExecuteKeepsMembers(w.room, op.actor, op.command);
    CommandSeen(w.room, op.actor, op.command, localName, r, w.views[r], exact);
  }

  lemma {:induction false} JoinedViewMirrors(w: World, op: Op, localName: string, hostTicket: Option<string>,
                                             r: MemberId, exact: bool)
    requires Faithful(w, exact) && op.Join? && Apply(w.room, op).Applied?
    requires var room' := Apply(w.room, op).room; r in room'.members && r != room'.host
    ensures var out := Apply(w.room, op); Mirrors(out.room, r, ViewAfter(w, op, out, localName, hostTicket, r), exact)
  {
    FreshId(w.room);
    if r in w.views {
      JoinSeen(w.room, op.name, op.fingerprint, r, w.views[r], exact);
    } else {
      JoinGood(w.room, op.name, op.fingerprint);
      JoinerGreeted(JoinRoom(w.room, op.name, op.fingerprint).room, r, hostTicket, exact);
    }
  }

  lemma {:induction false} ViewAfterMirrors(w: World, op: Op, localName: string, hostTicket: Option<string>,
                                            r: MemberId,
                                            exact: bool)
    requires Faithful(w, exact) && Apply(w.room, op).Applied?
    requires var room' := Apply(w.room, op).room; r in room'.members && r != room'.host
    ensures var out := Apply(w.room, op); Mirrors(out.room, r, ViewAfter(w, op, out, localName, hostTicket, r), exact)
  {
    match op
    case Join(_, _) =>
      JoinedViewMirrors(w, op, localName, hostTicket, r, exact);
    case Leave(member, reason) =>
      MemberLeftSeen(w.room, member, reason, r, w.views[r], exact);
    case Issue(_, _) =>
      IssuedViewMirrors(w, op, localName, hostTicket, r, exact);
  }

  lemma {:induction false} StepView(w: World, op: Op, localName: string, hostTicket: Option<string>, r: MemberId,
                                    exact: bool)
    requires Faithful(w, exact) && r in Step(w, op, localName, hostTicket).views
    ensures var w' := Step(w, op, localName, hostTicket); Mirrors(w'.room, r, w'.views[r], exact)
  {
    if Apply(w.room, op).Applied? {
      ViewAfterMirrors(w, op, localName, hostTicket, r, exact);
    }
  }

  lemma {:induction false} StepRoom(w: World, op: Op, localName: string, hostTicket: Option<string>, exact: bool)
    requires Faithful(w, exact)
    ensures var w' := Step(w, op, localName, hostTicket);
            Good(w'.room) && w'.views.Keys == w'.room.members.Keys - {w'.room.host}
  {
    ApplyGood(w.room, op);
  }

  lemma {:induction false} StepKeepsFaithful(w: World, op: Op, localName: string, hostTicket: Option<string>,
                                             exact: bool)
    requires Faithful(w, exact)
    ensures Faithful(Step(w, op, localName, hostTicket), exact)
  {
    var w' := Step(w, op, localName, hostTicket);
    StepRoom(w, op, localName, hostTicket, exact);
    forall r | r in w'.views ensures Mirrors(w'.room, r, w'.views[r], exact) {
      StepView(w, op, localName, hostTicket, r, exact);
    }
  }

  lemma {:induction false} RunKeepsFaithful(w: World, inputs: seq<Input>, exact: bool)
    requires Faithful(w, exact)
    ensures Faithful(Run(w, inputs), exact)
  {
    if inputs != [] {
      var last := inputs[|inputs| - 1];
      RunKeepsFaithful(w, inputs[..|inputs| - 1], exact);
      StepKeepsFaithful(Run(w, inputs[..|inputs| - 1]), last.op, last.localName, last.hostTicket, exact);
    }
  }

  /**
    For every run of host operations from a new room: every joined member's view is the host's room as that
    member may see it.
  */
  lemma {:induction false} EveryRunIsFaithful(id: string, hostName: string, fingerprint: Option<string>,
                                              inputs: seq<Input>)
    requires NewRoom(id, hostName, fingerprint).Success?
    ensures Faithful(Run(World(NewRoom(id, hostName, fingerprint).value, map[]), inputs), true)
  {
    NewRoomGood(id, hostName, fingerprint);
    RunKeepsFaithful(World(NewRoom(id, hostName, fingerprint).value, map[]), inputs, true);
  }

  // ----- identifiers -----

  lemma {:induction false} StepIndexGrows(w: World, op: Op, localName: string, hostTicket: Option<string>)
    requires Faithful(w, true)
    ensures w.room.nextIndex <= Step(w, op, localName, hostTicket).room.nextIndex
  {
    ApplyGood(w.room, op);
  }

  lemma {:induction false} LastIndexGrows(w: World, inputs: seq<Input>)
    requires Faithful(w, true) && inputs != []
    ensures Run(w, inputs[..|inputs| - 1]).room.nextIndex <= Run(w, inputs).room.nextIndex
  {
    var n := |inputs| - 1;
    RunKeepsFaithful(w, inputs[..n], true);
    StepIndexGrows(Run(w, inputs[..n]), inputs[n].op, inputs[n].localName, inputs[n].hostTicket);
  }

  lemma {:induction false} IndexGrows(w: World, inputs: seq<Input>, k: nat)
    requires Faithful(w, true) && k <= |inputs|
    ensures Run(w, inputs[..k]).room.nextIndex <= Run(w, inputs).room.nextIndex
  {
    if k < |inputs| {
      var n := |inputs| - 1;
      assert inputs[..n][..k] == inputs[..k];
      IndexGrows(w, inputs[..n], k);
      LastIndexGrows(w, inputs);
    } else {
      assert inputs[..k] == inputs;
    }
  }

  /** The identifier given to the next newcomer has belonged to nobody at any earlier point of the run. */
  lemma IdentifiersAreNeverReused(w: World, inputs: seq<Input>, k: nat)
    requires Faithful(w, true) && k <= |inputs|
    ensures MemberName(Run(w, inputs).room.nextIndex) !in Run(w, inputs[..k]).room.members
  {
    IndexGrows(w, inputs, k);
    RunKeepsFaithful(w, inputs[..k], true);
    var next := Run(w, inputs).room.nextIndex;
    var earlier := Run(w, inputs[..k]).room;
    if MemberName(next) in earlier.members {
      var i: nat :| i < earlier.nextIndex && MemberName(next) == MemberName(i);
      MemberNameInjective(i, next);
    }
  }

  // ----- commands the host refuses -----

  /** What the issuer would record for a channel it opens. */
  ghost function OwnChannel(room: Room, r: MemberId, c: Command): Replica.JoinChannel
    requires c.OpenChannel?
  {
    Replica.JoinChannel(r, c.kind, Participants(room.members.Keys, r, c.to), c.name, c.size, c.transfer, true)
  }

  /** When a refused command still leaves its issuer's view right; decidable before the command is sent. */
  ghost predicate Harmless(room: Room, r: MemberId, c: Command, exact: bool) {
    match c
    case OpenChannel(channel, _, to, _, _, _, _) =>
      || (to.To? && to.member !in room.members)
      || (channel in room.channels && SameChannel(room.channels[channel], OwnChannel(room, r, c), exact))
    case UpdateChannelTransfer(channel, size, offer) =>
      exact && channel in room.channels && r in room.channels[channel].participants ==>
        room.channels[channel].size == size && room.channels[channel].transfer == Some(offer)
    case _ => true
  }

  lemma WhyOpenIsRefused(room: Room, r: MemberId, c: Command)
    requires Good(room) && r in room.members
    requires c.OpenChannel? && ValidCommand(c).Valid? && Execute(room, r, c).Refused?
    ensures c.channel in room.channels || (c.to.To? && c.to.member !in room.members)
  {
    var event := ChannelOpened(c.channel, c.kind, r, room.members[r].name, c.to, c.name, c.size, c.mime, c.transfer);
    assert ValidEvent(event).Valid?;
  }

  lemma OverwrittenChannel(host: map<ChannelId, Channel>, r: MemberId, seen: map<ChannelId, Replica.JoinChannel>,
                           channel: ChannelId, own: Replica.JoinChannel, exact: bool)
    requires SameChannels(host, r, seen, exact) && r in own.participants
    ensures SameChannels(host, r, seen[channel := own], exact) <==>
              channel in host && SameChannel(host[channel], own, exact)
  {
    var after := seen[channel := own];
    if SameChannels(host, r, after, exact) {
      assert channel in after;
    }
  }

  lemma {:induction false} RefusedOpen(room: Room, r: MemberId, v: Replica.View, localName: string, c: Command,
                                          exact: bool)
    requires Good(room) && r in room.members && Mirrors(room, r, v, exact)
    requires c.OpenChannel? && ValidCommand(c).Valid? && Execute(room, r, c).Refused?
    ensures Mirrors(room, r, Replica.OwnEffect(v, r, localName, c), exact) <==> Harmless(room, r, c, exact)
  {
    WhyOpenIsRefused(room, r, c);
    var participants := Replica.EventParticipants(v.members, r, c.to);
    if participants.Some? {
      assert participants.value == Participants(room.members.Keys, r, c.to);
      var own := OwnChannel(room, r, c);
      OverwrittenChannel(room.channels, r, v.channels, c.channel, own, exact);
      assert Replica.OwnEffect(v, r, localName, c) == v.(channels := v.channels[c.channel := own]);
    } else {
      assert Replica.OwnEffect(v, r, localName, c) == v;
    }
  }

  lemma RepeatedTransfer(host: map<ChannelId, Channel>, r: MemberId, seen: map<ChannelId, Replica.JoinChannel>,
                         channel: ChannelId, size: Option<nat>, offer: TransferOffer, exact: bool)
    requires SameChannels(host, r, seen, exact) && channel in seen
    ensures SameChannels(host, r, seen[channel := seen[channel].(size := size, transfer := Some(offer))], exact) <==>
            (exact ==> host[channel].size == size && host[channel].transfer == Some(offer))
  {
    var after := seen[channel := seen[channel].(size := size, transfer := Some(offer))];
    assert channel in after;
  }

  lemma RefusedUpdate(room: Room, r: MemberId, v: Replica.View, localName: string, c: Command, exact: bool)
    requires Mirrors(room, r, v, exact) && c.UpdateChannelTransfer?
    ensures Mirrors(room, r, Replica.OwnEffect(v, r, localName, c), exact) <==> Harmless(room, r, c, exact)
  {
    assert Replica.OwnEffect(v, r, localName, c) == Replica.SetTransfer(v, c.channel, c.size, c.offer);
    if c.channel in v.channels {
      RepeatedTransfer(room.channels, r, v.channels, c.channel, c.size, c.offer, exact);
    }
  }

  lemma WhyDropOutIsRefused(room: Room, r: MemberId, c: Command)
    requires Good(room) && r in room.members
    requires c.RejectChannel? || c.CloseChannel?
    requires ValidCommand(c).Valid? && Execute(room, r, c).Refused?
    ensures c.channel !in room.channels || r !in room.channels[c.channel].participants
  {
    var name := room.members[r].name;
    assert ValidEvent(ChannelRejected(c.channel, r, name, c.reason)).Valid?;
    assert ValidEvent(ChannelClosed(c.channel, r, name, c.reason)).Valid?;
  }

  lemma NothingToDropOutOf(r: MemberId, v: Replica.View, localName: string, c: Command)
    requires (c.RejectChannel? || c.CloseChannel?) && c.channel !in v.channels
    ensures Replica.OwnEffect(v, r, localName, c) == v
  {
    assert v.channels - {c.channel} == v.channels;
  }

  lemma {:induction false} RefusedDropOut(room: Room, r: MemberId, v: Replica.View, localName: string, c: Command,
                                          exact: bool)
    requires Good(room) && r in room.members && Mirrors(room, r, v, exact)
    requires c.RejectChannel? || c.CloseChannel?
    requires ValidCommand(c).Valid? && Execute(room, r, c).Refused?
    ensures Mirrors(room, r, Replica.OwnEffect(v, r, localName, c), exact)
  {
    WhyDropOutIsRefused(room, r, c);
    NothingToDropOutOf(r, v, localName, c);
  }

  /**
    A joiner makes its own effect without waiting for the host. When the host refuses the command, the joiner's view
    is still right exactly when the command was harmless.
  */
  lemma {:induction false} RefusedCommand(room: Room, r: MemberId, v: Replica.View, localName: string, c: Command,
                                          exact: bool)
    requires Good(room) && r in room.members && Mirrors(room, r, v, exact)
    requires ValidCommand(c).Valid? && Execute(room, r, c).Refused?
    ensures Mirrors(room, r, Replica.OwnEffect(v, r, localName, c), exact) <==> Harmless(room, r, c, exact)
  {
    if c.OpenChannel? {
      RefusedOpen(room, r, v, localName, c, exact);
    } else if c.UpdateChannelTransfer? {
      RefusedUpdate(room, r, v, localName, c, exact);
    } else if c.RejectChannel? || c.CloseChannel? {
      RefusedDropOut(room, r, v, localName, c, exact);
    }
  }

  // ----- a room of two -----

  function TwoMembers(channels: map<ChannelId, Channel>): Room {
    var host, guest := Member(MemberName(1), "h", None), Member(MemberName(2), "g", None);
    Room("demo", host.id, map[host.id := host, guest.id := guest], channels, 3)
  }

  lemma TwoMembersAreGood(channels: map<ChannelId, Channel>)
    requires GoodChannels({MemberName(1), MemberName(2)}, channels)
    ensures MemberName(1) != MemberName(2)
    ensures TwoMembers(channels).members.Keys == {MemberName(1), MemberName(2)}
    ensures Good(TwoMembers(channels))
  {
    if MemberName(1) == MemberName(2) { MemberNameInjective(1, 2); }
    MemberNameNotBlank(1);
    MemberNameNotBlank(2);
    assert Indexed(MemberName(1), 3) && Indexed(MemberName(2), 3);
    assert "h"[0] == 'h' && "g"[0] == 'g';
  }

  /** The host's side of a channel as a joiner sees it. */
  function Seen(c: Channel): Replica.JoinChannel {
    Replica.JoinChannel(c.opener, c.kind, c.participants, c.name, c.size, c.transfer, false)
  }

  /** What the second of the two sees of one channel it takes part in, or of none. */
  function GuestView(room: Room, seen: map<ChannelId, Replica.JoinChannel>): Replica.View {
    Replica.View(Some(MemberName(2)), Some(room.host), room.members, map[], seen, {}, {}, map[], None)
  }

  lemma GuestSees(channel: ChannelId, c: Channel)
    ensures var room := TwoMembers(map[channel := c]);
            Mirrors(room, MemberName(2),
              GuestView(room, if MemberName(2) in c.participants then map[channel := Seen(c)] else map[]), true)
  {
  }

  /** The second of two members opens a channel under an identifier the host already uses by itself. */
  lemma {:induction false} RefusedOpenCanDiverge() returns (room: Room, r: MemberId, v: Replica.View, c: Command)
    ensures Good(room) && r in room.members && Mirrors(room, r, v, true)
    ensures ValidCommand(c).Valid? && Execute(room, r, c) == Refused(ChannelAlreadyOpen)
    ensures !Mirrors(room, r, Replica.OwnEffect(v, r, "guest", c), false)
  {
    var own := Channel(MemberName(1), Machine, {MemberName(1)}, None, None, None, None);
    TwoMembersAreGood(map["c" := own]);
    GuestSees("c", own);
    room, r := TwoMembers(map["c" := own]), MemberName(2);
    v := GuestView(room, map[]);
    c := Command.OpenChannel("c", Machine, All, None, None, None, None);
    NamedC();
    AlreadyOpen(room, r, c);
    assert Mirrors(room, r, v, false);
    RefusedOpen(room, r, v, "guest", c, false);
    assert !Harmless(room, r, c, false);
  }

  lemma NamedC()
    ensures !Blank("c")
  {
    assert "c"[0] == 'c';
  }

  lemma AlreadyOpen(room: Room, r: MemberId, c: Command)
    requires Good(room) && r in room.members && c.OpenChannel? && c.to == All && c.channel in room.channels
    requires ValidCommand(c).Valid?
    ensures Execute(room, r, c) == Refused(ChannelAlreadyOpen)
  {
    var e := ChannelOpened(c.channel, c.kind, r, room.members[r].name, c.to, c.name, c.size, c.mime, c.transfer);
    assert ValidEvent(e).Valid?;
  }

  // ----- direct traffic -----

  lemma OnlyThem(member: MemberId, sender: MemberId)
    requires member != sender
    ensures Sorted({member} - {sender}) == [member]
  {
    AscendingIsSorted([member], {member} - {sender});
  }

  lemma ChatIsRouted(room: Room, r: MemberId, to: Route, text: string)
    requires Good(room) && r in room.members && ValidCommand(Command.SendChat(to, text)).Valid?
    ensures Execute(room, r, Command.SendChat(to, text)) ==
            match RouteTargets(room, r, to)
            case Failure(error) => Refused(error)
            case Success(targets) => Applied(room, targets, ChatReceived(r, room.members[r].name, to, text))
  {
    assert ValidEvent(ChatReceived(r, room.members[r].name, to, text)).Valid?;
  }

  /** A joiner sends chat to exactly the members, in the same order, that the host would have routed it to. */
  lemma {:induction false} ChatReachesTheSameMembers(room: Room, r: MemberId, v: Replica.View, to: Route, text: string)
    requires Good(room) && r in room.members && Mirrors(room, r, v, false)
    requires ValidCommand(Command.SendChat(to, text)).Valid?
    ensures match Execute(room, r, Command.SendChat(to, text))
            case Applied(_, recipients, _) => Replica.ChatRecipients(r, to, v.members) == Success(Sorted(recipients))
            case Refused(_) => Replica.ChatRecipients(r, to, v.members).Failure?
  {
    ChatIsRouted(room, r, to, text);
    if to.To? && to.member != r {
      OnlyThem(to.member, r);
    } else if to.To? {
      assert {to.member} - {r} == {};
    }
  }

  lemma {:induction false} DataIsRouted(room: Room, r: MemberId, channel: ChannelId, body: string)
    requires Good(room) && r in room.members && ValidCommand(Command.SendChannelData(channel, body)).Valid?
    ensures Execute(room, r, Command.SendChannelData(channel, body)) ==
            if channel !in room.channels then Refused(UnknownChannel)
            else
              var c := room.channels[channel];
              if c.kind == File || c.kind == Pipe then Refused(ChannelDataUnsupported)
              else if r !in c.participants then Refused(MemberNotInChannel)
              else Applied(room, c.participants - {r}, ChannelData(channel, r, room.members[r].name, body))
  {
    assert ValidEvent(ChannelData(channel, r, room.members[r].name, body)).Valid?;
    if channel in room.channels {
      var participants := room.channels[channel].participants;
      assert (participants - {r}) * room.members.Keys == participants - {r};
    }
  }

  /**
    Channel data goes to the same members, in the same order, or both refuse it: except on a pipe channel the joiner
    takes part in, where the host refuses and the joiner does not. What the host routes is the body as it was sent.
  */
  lemma {:induction false} DataReachesTheSameMembers(room: Room, r: MemberId, v: Replica.View, channel: ChannelId,
                                                     body: string)
    requires Good(room) && r in room.members && Mirrors(room, r, v, false)
    requires ValidCommand(Command.SendChannelData(channel, body)).Valid?
    ensures (match Execute(room, r, Command.SendChannelData(channel, body))
             case Applied(_, recipients, _) =>
               Replica.ChannelRecipients(r, channel, v.channels) == Success(Sorted(recipients))
             case Refused(_) => Replica.ChannelRecipients(r, channel, v.channels).Failure?)
       <==> !(channel in room.channels && room.channels[channel].kind == Pipe
              && r in room.channels[channel].participants)
    ensures var out := Execute(room, r, Command.SendChannelData(channel, body));
            out.Applied? ==> out.event == ChannelData(channel, r, room.members[r].name, body)
  {
    DataIsRouted(room, r, channel, body);
  }

  lemma PipeDataIsRefused(room: Room, r: MemberId, channel: ChannelId, body: string)
    requires r in room.members && ValidEvent(ChannelData(channel, r, room.members[r].name, body)).Valid?
    requires channel in room.channels && room.channels[channel].kind == Pipe
    ensures Execute(room, r, Command.SendChannelData(channel, body)) == Refused(ChannelDataUnsupported)
  {
  }

  lemma ValidData(channel: ChannelId, r: MemberId, name: string, body: string)
    requires !Blank(channel) && !Blank(r) && !Blank(name) && body != ""
    ensures ValidEvent(ChannelData(channel, r, name, body)).Valid?
  {
  }

  /** Two members share a pipe: the guest addresses its data to the host, who would have refused to route it. */
  lemma {:induction false} PipeDataIsAddressed() returns (room: Room, r: MemberId, v: Replica.View)
    ensures Good(room) && r in room.members && Mirrors(room, r, v, true)
    ensures Execute(room, r, Command.SendChannelData("c", "x")) == Refused(ChannelDataUnsupported)
    ensures Replica.ChannelRecipients(r, "c", v.channels) == Success([room.host])
  {
    var pair := {MemberName(1), MemberName(2)};
    var pipe := Channel(MemberName(1), Pipe, pair, None, None, None, None);
    if MemberName(1) == MemberName(2) { MemberNameInjective(1, 2); }
    PairHasTwo(MemberName(1), MemberName(2), pair);
    TwoMembersAreGood(map["c" := pipe]);
    room, r := TwoMembers(map["c" := pipe]), MemberName(2);
    v := GuestView(room, map["c" := Seen(pipe)]);
    GuestSees("c", pipe);
    NamedC();
    ValidData("c", r, room.members[r].name, "x");
    PipeDataIsRefused(room, r, "c", "x");
    OnlyThem(room.host, r);
    assert pair - {r} == {room.host} - {r};
  }
}
