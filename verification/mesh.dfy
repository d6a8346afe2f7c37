/**
  The mesh of joiners over whole runs of the host: who is introduced to whom, that no event is lost before a link is
  ready, and that a joiner told to dial always knows itself by then.
*/
module Mesh {
  import opened Wrappers
  import opened Ordering
  import opened RoomProtocol
  import opened RoomAuthority
  import opened RoomAnswers
  import opened FileReceive
  import opened HostLinks
  import FileFinalisation
  import Text
  import Replica

  lemma {:induction false} RunKeepsInv(room: Room, inputs: seq<Input>)
    requires Good(room) && room.members.Keys == {room.host} && Run(room, inputs).Success?
    ensures Inv(Run(room, inputs).value)
  {
    if inputs == [] {
      assert GoodPeers(room, map[]);
    } else {
      RunKeepsInv(room, inputs[..|inputs| - 1]);
      StepKeepsInv(Run(room, inputs[..|inputs| - 1]).value, inputs[|inputs| - 1]);
    }
  }

  /**
    After any run: every two connected joiners have each been told about the other exactly once, with the other's
    ticket, and exactly one of them, the older, was told to dial.
  */
  lemma {:induction false} EveryPairIsIntroduced(room: Room, inputs: seq<Input>, a: MemberId, b: MemberId)
    requires Good(room) && room.members.Keys == {room.host} && Run(room, inputs).Success?
    requires var peers := Run(room, inputs).value.host.peers; a in peers && b in peers && a != b
    ensures var h := Run(room, inputs).value.host;
            && a in h.room.members && b in h.room.members && h.peers[b].ticket.Some?
            && Orders(h.peers[a].authority, b)
                 == [PeerConnect(h.room.members[b], h.peers[b].ticket.value, Older(a, b))]
            && (Older(a, b) <==> !Older(b, a))
  {
    RunKeepsInv(room, inputs);
    var h := Run(room, inputs).value.host;
    assert GoodPeer(h.room, a, h.peers[a]) && GoodPeer(h.room, b, h.peers[b]);
    assert Introduced(h.peers[a], h.peers[b]);
    OlderIsExclusive(a, b, h.room.nextIndex);
  }

  // ----- delivery -----

  /** All that the room has emitted in a run. */
  ghost function EmittedInRun(room: Room, inputs: seq<Input>): seq<Routed>
    requires Run(room, inputs).Success?
  {
    if inputs == [] then []
    else
      var n := |inputs| - 1;
      EmittedInRun(room, inputs[..n]) + Emitted(Run(room, inputs[..n]).value.host, inputs[n])
  }

  /** What was emitted at the inputs that lose their emissions. */
  ghost function DroppedInRun(room: Room, inputs: seq<Input>): seq<Routed>
    requires Run(room, inputs).Success?
  {
    if inputs == [] then []
    else
      var n := |inputs| - 1;
      DroppedInRun(room, inputs[..n]) + Dropped(Run(room, inputs[..n]).value.host, inputs[n])
  }

  /** All the events for one member, and what of them was handed on and what dropped. */
  ghost predicate Accounted(all: seq<Event>, log: seq<Event>, dropped: seq<Event>) {
    |all| == |log| + |dropped| && (dropped == [] ==> all == log)
  }

  lemma {:induction false} MoreIsAccounted(all: seq<Routed>, log: seq<Routed>, dropped: seq<Routed>,
                                           all': seq<Routed>, log': seq<Routed>, dropped': seq<Routed>, p: MemberId)
    requires Accounted(EventsFor(all, p), EventsFor(log, p), EventsFor(dropped, p))
    requires Accounted(EventsFor(all', p), EventsFor(log', p), EventsFor(dropped', p))
    ensures Accounted(EventsFor(all + all', p), EventsFor(log + log', p), EventsFor(dropped + dropped', p))
  {
    EventsForAppend(all, all', p);
    EventsForAppend(log, log', p);
    EventsForAppend(dropped, dropped', p);
  }

  lemma {:induction false} SplitIsAccounted(routed: seq<Routed>, k: nat, p: MemberId)
    requires k <= |routed|
    ensures Accounted(EventsFor(routed, p), EventsFor(routed[..k], p), EventsFor(routed[k..], p))
  {
    assert routed[..k] + routed[k..] == routed;
    EventsForAppend(routed[..k], routed[k..], p);
  }

  lemma {:induction false} HandedOnOrDropped(h: Host, input: Input, p: MemberId)
    ensures Accounted(EventsFor(Emitted(h, input), p), EventsFor(HandedOn(h, input), p),
                      EventsFor(Dropped(h, input), p))
  {
    SplitIsAccounted(Emitted(h, input), Delivering(h, input), p);
  }

  lemma LogsGrow(room: Room, inputs: seq<Input>)
    requires inputs != [] && Run(room, inputs).Success?
    ensures Run(room, inputs[..|inputs| - 1]).Success?
    ensures var before, last := Run(room, inputs[..|inputs| - 1]).value, inputs[|inputs| - 1];
            && Run(room, inputs).value.log == before.log + HandedOn(before.host, last)
            && EmittedInRun(room, inputs) == EmittedInRun(room, inputs[..|inputs| - 1]) + Emitted(before.host, last)
            && DroppedInRun(room, inputs) == DroppedInRun(room, inputs[..|inputs| - 1]) + Dropped(before.host, last)
  {
  }

  lemma {:induction false} EmittedIsHandedOnOrDropped(room: Room, inputs: seq<Input>, p: MemberId)
    requires Run(room, inputs).Success?
    ensures Accounted(EventsFor(EmittedInRun(room, inputs), p), EventsFor(Run(room, inputs).value.log, p),
                      EventsFor(DroppedInRun(room, inputs), p))
  {
    if inputs != [] {
      var first, last := inputs[..|inputs| - 1], inputs[|inputs| - 1];
      LogsGrow(room, inputs);
      var before := Run(room, first).value;
      EmittedIsHandedOnOrDropped(room, first, p);
      HandedOnOrDropped(before.host, last, p);
      MoreIsAccounted(EmittedInRun(room, first), before.log, DroppedInRun(room, first),
                      Emitted(before.host, last), HandedOn(before.host, last), Dropped(before.host, last), p);
    }
  }

  /**
    After any run: what went over a joiner's peer link, followed by what still waits for the link, is exactly what the
    room has emitted for that joiner, in the order it was emitted, if and only if nothing for that joiner was emitted by
    a command whose serving faulted; once the link is ready nothing waits.
  */
  lemma {:induction false} NoEventIsLost(room: Room, inputs: seq<Input>, p: MemberId)
    requires Good(room) && room.members.Keys == {room.host} && Run(room, inputs).Success?
    requires p in Run(room, inputs).value.host.peers
    ensures var peer := Run(room, inputs).value.host.peers[p];
            && (peer.sent + peer.pending == EventsFor(EmittedInRun(room, inputs), p) <==>
                EventsFor(DroppedInRun(room, inputs), p) == [])
            && (peer.ready ==> peer.pending == [])
  {
    RunKeepsInv(room, inputs);
    EmittedIsHandedOnOrDropped(room, inputs, p);
  }

  /** Somebody's link turns out to be broken. */
  ghost predicate AnyDead(peers: map<MemberId, PeerHandle>, recipients: set<MemberId>) {
    exists d :: d in recipients && Dead(peers, d)
  }

  lemma CutMeansDead(peers: map<MemberId, PeerHandle>, recipients: set<MemberId>, event: Event)
    ensures Cut(peers, Fanout(recipients, event)) <==> AnyDead(peers, recipients)
  {
    var routed := Fanout(recipients, event);
    if AnyDead(peers, recipients) {
      var d :| d in recipients && Dead(peers, d);
      var i :| 0 <= i < |routed| && Sorted(recipients)[i] == d;
      assert routed[i].recipient == d;
    }
  }

  /**
    An input drops some of its emissions exactly when it is a command the room carries out, and the transfer it is about
    cannot be fetched (an update of one the host has accepted, or an acceptance of the host's own) or somebody who
    should be told has a broken link.
  */
  lemma {:induction false} WhenEventsAreDropped(h: Host, input: Input)
    requires Good(h.room)
    ensures Loses(h, input) <==>
            && input.Commanded? && Execute(h.room, input.actor, input.command).Applied?
            && var out := Execute(h.room, input.actor, input.command);
               || Faults(out.room, Providers(h.peers), h.files, input.actor, input.command)
               || AnyDead(h.peers, out.recipients)
  {
    if input.Commanded? {
      var out := Execute(h.room, input.actor, input.command);
      EmittedByCommand(h, input.actor, input.command);
      if out.Applied? {
        var cut := Cut(h.peers, Announced(out));
        WhenServingFaults(h.room, input.actor, input.command, Providers(h.peers), h.files, cut);
        CutMeansDead(h.peers, out.recipients, out.event);
      }
    }
  }

  lemma {:induction false} FannedOut(ids: seq<MemberId>, event: Event, p: MemberId)
    requires forall i, j | 0 <= i < j < |ids| :: ids[i] != ids[j]
    ensures EventsFor(FanoutTo(ids, event), p) == if p in ids then [event] else []
  {
    if ids != [] {
      var n := |ids| - 1;
      FannedOut(ids[..n], event, p);
      assert FanoutTo(ids, event)[..n] == FanoutTo(ids[..n], event);
      assert p in ids <==> p in ids[..n] || p == ids[n];
    }
  }

  /** In an ascending list, from position k on there is what is not below its element there. */
  lemma InTheRest(ids: seq<MemberId>, k: nat, p: MemberId)
    requires Ascending(ids) && k <= |ids|
    ensures p in ids[k..] <==> p in ids && k < |ids| && (ids[k] == p || Below(ids[k], p))
  {
    if p in ids {
      var j :| 0 <= j < |ids| && ids[j] == p;
      if k <= j {
        assert ids[k..][j - k] == p;
      } else if k < |ids| {
        BelowAsymmetric(ids[j], ids[k]);
        AscendingDistinct(ids);
      }
    }
  }

  ghost predicate NotReached(peers: map<MemberId, PeerHandle>, recipients: set<MemberId>, p: MemberId) {
    p in recipients && exists d :: d in recipients && Dead(peers, d) && (d == p || Below(d, p))
  }

  lemma {:induction false} LaterDeadFollows(peers: map<MemberId, PeerHandle>, ids: seq<MemberId>, k: nat, d: MemberId,
                                            p: MemberId)
    requires Ascending(ids) && k <= |ids| && forall i | 0 <= i < k :: !Dead(peers, ids[i])
    requires d in ids && Dead(peers, d) && p in ids && (d == p || Below(d, p))
    ensures p in ids[k..]
  {
    var i :| 0 <= i < |ids| && ids[i] == d;
    InTheRest(ids, i, p);
    var j :| 0 <= j < |ids[i..]| && ids[i..][j] == p;
    assert ids[k..][i + j - k] == p;
  }

  lemma {:induction false} FirstDeadDecides(peers: map<MemberId, PeerHandle>, recipients: set<MemberId>,
                                            ids: seq<MemberId>, p: MemberId, k: nat)
    requires ids == Sorted(recipients) && k <= |ids| && forall i | 0 <= i < k :: !Dead(peers, ids[i])
    requires k < |ids| ==> Dead(peers, ids[k])
    ensures p in ids[k..] <==> NotReached(peers, recipients, p)
  {
    SortedAscends(recipients);
    if p in ids[k..] {
      InTheRest(ids, k, p);
      assert ids[k] in recipients;
    }
    if NotReached(peers, recipients, p) {
      var d :| d in recipients && Dead(peers, d) && (d == p || Below(d, p));
      LaterDeadFollows(peers, ids, k, d, p);
    }
  }

  lemma RestIsDistinct(ids: seq<MemberId>, k: nat)
    requires Ascending(ids) && k <= |ids|
    ensures forall i, j | 0 <= i < j < |ids[k..]| :: ids[k..][i] != ids[k..][j]
  {
    AscendingDistinct(ids);
  }

  /** In a delivery to some recipients, those at and after the first dead link are not told. */
  lemma {:induction false} WhoIsNotReached(peers: map<MemberId, PeerHandle>, recipients: set<MemberId>, event: Event,
                                           p: MemberId)
    ensures var routed := Fanout(recipients, event);
            EventsFor(routed[Reach(peers, routed)..], p) == if NotReached(peers, recipients, p) then [event] else []
  {
    var ids, routed := Sorted(recipients), Fanout(recipients, event);
    var k := Reach(peers, routed);
    FirstDeadDecides(peers, recipients, ids, p, k);
    assert routed[k..] == FanoutTo(ids[k..], event);
    SortedAscends(recipients);
    RestIsDistinct(ids, k);
    FannedOut(ids[k..], event, p);
  }

  /**
    Whom a command that is carried out is not announced to: all that it is for, when serving it faults; and otherwise
    those with a broken link and those who come after one in the order of their identifiers.
  */
  lemma {:induction false} WhoIsNotTold(h: Host, actor: MemberId, command: Command, p: MemberId)
    requires Execute(h.room, actor, command).Applied?
    ensures var out, input := Execute(h.room, actor, command), Commanded(actor, command);
            EventsFor(Dropped(h, input), p) ==
              if (Faulted(h, input) && p in out.recipients) || NotReached(h.peers, out.recipients, p)
              then [out.event] else []
  {
    var out := Execute(h.room, actor, command);
    EmittedByCommand(h, actor, command);
    if Faulted(h, Commanded(actor, command)) {
      SortedAscends(out.recipients);
      AscendingDistinct(Sorted(out.recipients));
      FannedOut(Sorted(out.recipients), out.event, p);
    } else {
      WhoIsNotReached(h.peers, out.recipients, out.event, p);
    }
  }

  // ----- from a command to the links -----

  /** All that a joiner has been sent over its peer link or will be as soon as the link is ready. */
  function SentOrKept(peer: PeerHandle): seq<Event> {
    peer.sent + peer.pending
  }

  /** Everybody else that a command concerns. */
  ghost function Audience(room: Room, actor: MemberId, command: Command): set<MemberId> {
    set p | p in room.members && p != actor && Concerns(room, command, p)
  }

  lemma ComplaintTellsNoPeerLink(peers: map<MemberId, PeerHandle>, actor: MemberId, command: Command, p: MemberId)
    requires p in peers
    ensures var after := Complained(peers, actor, command); p in after && SentOrKept(after[p]) == SentOrKept(peers[p])
  {
  }

  lemma DeliveryTells(peers: map<MemberId, PeerHandle>, routed: seq<Routed>, p: MemberId)
    requires p in peers && (peers[p].ready ==> peers[p].pending == [])
    ensures var after := Delivered(peers, routed);
            p in after && SentOrKept(after[p]) == SentOrKept(peers[p]) + EventsFor(routed, p)
  {
  }

  lemma {:induction false} MadeOrNot(peers: map<MemberId, PeerHandle>, out: Outcome, p: MemberId)
    requires out.Applied?
    ensures EventsFor(Made(peers, Announced(out)), p) ==
              if p in out.recipients && !NotReached(peers, out.recipients, p) then [out.event] else []
  {
    var routed := Announced(out);
    SortedAscends(out.recipients);
    AscendingDistinct(Sorted(out.recipients));
    FannedOut(Sorted(out.recipients), out.event, p);
    WhoIsNotReached(peers, out.recipients, out.event, p);
    SplitIsAccounted(routed, Reach(peers, routed), p);
  }

  lemma {:induction false} AnsweredTells(h: Host, actor: MemberId, command: Command, out: Outcome,
                                         receipt: HostReceipt, p: MemberId)
    requires out.Applied? && p in h.peers && (h.peers[p].ready ==> h.peers[p].pending == [])
    ensures var after := Answered(h, actor, command, out, receipt);
            && p in after.peers
            && SentOrKept(after.peers[p]) == SentOrKept(h.peers[p]) +
                 if p in out.recipients && !receipt.fault && !NotReached(h.peers, out.recipients, p)
                 then [out.event] else []
  {
    var routed := Made(h.peers, Announced(out));
    ComplaintTellsNoPeerLink(h.peers, actor, command, p);
    DeliveryTells(h.peers, routed, p);
    ComplaintTellsNoPeerLink(Delivered(h.peers, routed), actor, command, p);
    MadeOrNot(h.peers, out, p);
    assert SentOrKept(h.peers[p]) + [] == SentOrKept(h.peers[p]);
  }

  lemma {:induction false} ObeyedTells(h: Host, actor: MemberId, command: Command, p: MemberId, out: Outcome)
    requires out == Execute(h.room, actor, command) && out.Applied?
    requires p in h.peers && (h.peers[p].ready ==> h.peers[p].pending == [])
    ensures var after := Obeyed(h, actor, command);
            && p in after.peers
            && SentOrKept(after.peers[p]) == SentOrKept(h.peers[p]) +
                 if p in out.recipients && !ServedBy(h, actor, command, out).fault
                    && !NotReached(h.peers, out.recipients, p)
                 then [out.event] else []
  {
    ObeyedIsAnswered(h, actor, command);
    AnsweredTells(h, actor, command, out, ServedBy(h, actor, command, out), p);
  }

  lemma {:induction false} AudienceIsTold(room: Room, actor: MemberId, command: Command)
    requires Good(room) && Execute(room, actor, command).Applied?
    ensures Execute(room, actor, command).recipients == Audience(room, actor, command)
  {
    WhatACommandAnnounces(room, actor, command);
  }

  /**
    End to end: what a command that is carried out puts on a joiner's peer link. It is one event that tells the command
    in full and in its issuer's name, when the command concerns the joiner and is somebody else's, nothing faults, and
    no broken link comes before; otherwise it is nothing.
  */
  lemma {:induction false} CommandIsHandedOn(h: Host, actor: MemberId, command: Command, p: MemberId)
    requires Good(h.room) && Execute(h.room, actor, command).Applied?
    requires p in h.peers && (h.peers[p].ready ==> h.peers[p].pending == [])
    ensures var out, after := Execute(h.room, actor, command), Obeyed(h, actor, command);
            && actor in h.room.members && Conveys(out.event, actor, h.room.members[actor].name, command)
            && p in after.peers
            && SentOrKept(after.peers[p]) == SentOrKept(h.peers[p]) +
                 if p in Audience(h.room, actor, command)
                    && !Faults(out.room, Providers(h.peers), h.files, actor, command)
                    && !NotReached(h.peers, Audience(h.room, actor, command), p)
                 then [out.event] else []
  {
    var out := Execute(h.room, actor, command);
    AudienceIsTold(h.room, actor, command);
    WhatACommandAnnounces(h.room, actor, command);
    ObeyedTells(h, actor, command, p, out);
    WhenServingFaults(h.room, actor, command, Providers(h.peers), h.files, Cut(h.peers, Announced(out)));
  }

  /** A command fails for its issuer when it is refused, cannot be served, or is not announced to everybody. */
  ghost predicate Fails(h: Host, actor: MemberId, command: Command) {
    var out := Execute(h.room, actor, command);
    out.Applied? ==>
      || Faults(out.room, Providers(h.peers), h.files, actor, command)
      || AnyDead(h.peers, out.recipients)
  }

  lemma ComplaintIsWritten(peers: map<MemberId, PeerHandle>, actor: MemberId, command: Command, p: MemberId)
    requires p in peers
    ensures var about := if command.SendChat? then None else Some(command.channel);
            Complained(peers, actor, command)[p].authority ==
              peers[p].authority + if p == actor then [Told(CommandFailed(about))] else []
  {
  }

  lemma {:induction false} AnsweredComplains(h: Host, actor: MemberId, command: Command, out: Outcome,
                                             receipt: HostReceipt, p: MemberId)
    requires out.Applied? && p in h.peers
    ensures var after := Answered(h, actor, command, out, receipt);
            && p in after.peers
            && after.peers[p].authority ==
                 if receipt.fault || Cut(h.peers, Announced(out))
                 then Complained(h.peers, actor, command)[p].authority else h.peers[p].authority
  {
    ComplaintIsWritten(h.peers, actor, command, p);
    ComplaintIsWritten(Delivered(h.peers, Made(h.peers, Announced(out))), actor, command, p);
  }

  /** The issuer of a command that fails is told so over its authority link, once; nobody else hears of it there. */
  lemma {:induction false} WhoIsToldOfAFailure(h: Host, actor: MemberId, command: Command, p: MemberId)
    requires Good(h.room) && p in h.peers
    ensures var after := Obeyed(h, actor, command);
            var about := if command.SendChat? then None else Some(command.channel);
            && p in after.peers
            && after.peers[p].authority ==
                 h.peers[p].authority +
                 if p == actor && Fails(h, actor, command) then [Told(CommandFailed(about))] else []
  {
    var out := Execute(h.room, actor, command);
    ComplaintIsWritten(h.peers, actor, command, p);
    assert h.peers[p].authority + [] == h.peers[p].authority;
    if out.Applied? {
      ObeyedIsAnswered(h, actor, command);
      AnsweredComplains(h, actor, command, out, ServedBy(h, actor, command, out), p);
      WhenServingFaults(h.room, actor, command, Providers(h.peers), h.files, Cut(h.peers, Announced(out)));
      CutMeansDead(h.peers, out.recipients, out.event);
    }
  }

  lemma ChannelOutlivesItsOpener(h: Host, opener: MemberId, reason: Option<string>, channel: ChannelId, p: MemberId)
    requires Good(h.room) && opener in h.room.members && opener != h.room.host
    requires channel in h.room.channels && h.room.channels[channel].opener == opener
    requires {h.room.host, p, opener} <= h.room.channels[channel].participants && p !in {h.room.host, opener}
    ensures var after := Departed(h, opener, reason);
            && LeaveRoom(h.room, opener, reason).Applied? && Good(after.room) && after.room.host == h.room.host
            && channel in after.room.channels
            && after.room.channels[channel]
                 == h.room.channels[channel].(participants := h.room.channels[channel].participants - {opener})
  {
    var rest := h.room.channels[channel].participants - {opener};
    PairHasTwo(h.room.host, p, rest);
    LeaveGood(h.room, opener, reason);
  }

  lemma AcceptedOnChannel(room: Room, sender: MemberId, channel: ChannelId, event: Event)
    requires channel in room.channels && sender in room.members && sender in room.channels[channel].participants
    requires event.ChannelAccepted? && ValidEvent(event).Valid?
    ensures OnChannel(room, sender, channel, event, false)
         == Applied(room, (room.channels[channel].participants - {sender}) * room.members.Keys, event)
  {
  }

  lemma {:induction false} HostMayAccept(room: Room, channel: ChannelId, p: MemberId)
    requires Good(room) && !Text.Blank(channel) && channel in room.channels
    requires room.host in room.channels[channel].participants
    requires p in room.channels[channel].participants && p != room.host
    ensures var out := Execute(room, room.host, Command.AcceptChannel(channel));
            out.Applied? && out.room == room && p in out.recipients
  {
    var event := ChannelAccepted(channel, room.host, room.members[room.host].name);
    assert ValidEvent(event).Valid?;
    AcceptedOnChannel(room, room.host, channel, event);
    assert GoodChannel(room.members.Keys, room.channels[channel]);
  }

  lemma UnknownProviderFaults(h: Host, channel: ChannelId)
    requires Good(h.room) && channel in h.room.channels && h.room.channels[channel].kind == File
    requires h.room.channels[channel].opener != h.room.host && h.room.channels[channel].opener !in h.peers
    requires Execute(h.room, h.room.host, Command.AcceptChannel(channel)).Applied?
    requires Execute(h.room, h.room.host, Command.AcceptChannel(channel)).room == h.room
    ensures Faulted(h, Commanded(h.room.host, Command.AcceptChannel(channel)))
  {
    var accept := Command.AcceptChannel(channel);
    var cut := Cut(h.peers, Announced(Execute(h.room, h.room.host, accept)));
    WhenServingFaults(h.room, h.room.host, accept, Providers(h.peers), h.files, cut);
  }

  /**
    Somebody offers a file to several and leaves. The host still takes part in the channel and may accept it; the room
    tells the others, but nothing is handed on to them.
  */
  lemma {:induction false} AcceptanceAfterDeparture(h: Host, opener: MemberId, reason: Option<string>,
                                                    channel: ChannelId, p: MemberId)
    requires Good(h.room) && opener in h.room.members && opener != h.room.host && !Text.Blank(channel)
    requires channel in h.room.channels && h.room.channels[channel].opener == opener
    requires h.room.channels[channel].kind == File
    requires {h.room.host, p, opener} <= h.room.channels[channel].participants && p !in {h.room.host, opener}
    requires Step(h, Gone(opener, reason)).Success?
    ensures var after := Step(h, Gone(opener, reason)).value;
            var accept := Commanded(h.room.host, Command.AcceptChannel(channel));
            && Execute(after.room, accept.actor, accept.command).Applied?
            && p in Execute(after.room, accept.actor, accept.command).recipients
            && Loses(after, accept) && HandedOn(after, accept) == []
  {
    var after := Departed(h, opener, reason);
    GoneShape(h, Gone(opener, reason));
    ChannelOutlivesItsOpener(h, opener, reason, channel, p);
    HostMayAccept(after.room, channel, p);
    UnknownProviderFaults(after, channel);
    NothingHandedOn(after, after.room.host, Command.AcceptChannel(channel));
  }

  // ----- the end of the host's session -----

  /**
    What ends the host's session: taking in somebody whose name is blank or who brings no ticket, a transfer of its own
    that the room refuses for another reason than that the channel is gone, and, other than for a command, a broken link
    to somebody who should be told.
  */
  ghost predicate EndsSession(h: Host, input: Input) {
    match input
    case Connect(name, _, ticket) => Text.Blank(name) || ticket.None? || AnyDead(h.peers, h.room.members.Keys)
    case Gone(member, _) =>
      member in h.room.members && member != h.room.host && AnyDead(h.peers, h.room.members.Keys - {member})
    case TransferPrepared(_, _, _) => PreparedEnds(h, PreparedCommand(input))
    case PreparationFailed(_) => PreparedEnds(h, PreparedCommand(input))
    case _ => false
  }

  ghost predicate PreparedEnds(h: Host, command: Command) {
    match Execute(h.room, h.room.host, command)
    case Refused(error) => !Overlooked(error)
    case Applied(_, recipients, _) => AnyDead(h.peers, recipients)
  }

  lemma AdmissionKillsNoLink(h: Host, newcomer: PeerHandle, room: Room, recipients: set<MemberId>)
    requires AllTicketed(h.peers) && newcomer.ticket.Some? && !newcomer.ready && newcomer.member.id !in recipients
    ensures AnyDead(Admitted(h.peers, newcomer, room), recipients) <==> AnyDead(h.peers, recipients)
  {
    var admitted := Admitted(h.peers, newcomer, room);
    assert forall d | d in recipients :: Dead(admitted, d) <==> Dead(h.peers, d);
  }

  lemma {:induction false} AdmissionIsCut(h: Host, newcomer: PeerHandle, out: Outcome)
    requires AllTicketed(h.peers) && newcomer.ticket.Some? && !newcomer.ready
    requires out.Applied? && newcomer.member.id !in out.recipients
    ensures Cut(Admitted(h.peers, newcomer, out.room), Announced(out)) <==> AnyDead(h.peers, out.recipients)
  {
    AdmissionKillsNoLink(h, newcomer, out.room, out.recipients);
    CutMeansDead(Admitted(h.peers, newcomer, out.room), out.recipients, out.event);
  }

  lemma WhenJoiningIsRefused(room: Room, name: string, fingerprint: Option<string>)
    ensures JoinRoom(room, name, fingerprint).Refused? <==> Text.Blank(name)
    ensures !Text.Blank(name) ==> JoinRoom(room, name, fingerprint).recipients == room.members.Keys
  {
    MemberNameNotBlank(room.nextIndex);
  }

  lemma {:induction false} WhenConnectingFails(h: Host, name: string, fingerprint: Option<string>,
                                               ticket: Option<string>)
    requires Good(h.room) && AllTicketed(h.peers)
    ensures Connected(h, name, fingerprint, ticket).Failure? <==>
            Text.Blank(name) || ticket.None? || AnyDead(h.peers, h.room.members.Keys)
  {
    WhenJoiningIsRefused(h.room, name, fingerprint);
    if !Text.Blank(name) && ticket.Some? {
      FreshId(h.room);
      AdmissionIsCut(h, Newcomer(h, name, fingerprint, ticket), JoinRoom(h.room, name, fingerprint));
    }
  }

  lemma WhenLeavingIsRefused(room: Room, member: MemberId, reason: Option<string>)
    requires Good(room)
    ensures LeaveRoom(room, member, reason).Applied? <==> member in room.members && member != room.host
    ensures LeaveRoom(room, member, reason).Applied? ==>
              LeaveRoom(room, member, reason).recipients == room.members.Keys - {member}
  {
  }

  lemma DeadAmongOthers(peers: map<MemberId, PeerHandle>, recipients: set<MemberId>, member: MemberId)
    requires member !in recipients
    ensures AnyDead(peers - {member}, recipients) <==> AnyDead(peers, recipients)
  {
    assert forall d | d in recipients :: Dead(peers - {member}, d) <==> Dead(peers, d);
  }

  lemma {:induction false} DepartureIsCut(h: Host, member: MemberId, out: Outcome)
    requires out.Applied? ==> member !in out.recipients
    ensures Cut(h.peers - {member}, Announced(out)) <==> out.Applied? && AnyDead(h.peers, out.recipients)
  {
    if out.Applied? {
      CutMeansDead(h.peers - {member}, out.recipients, out.event);
      DeadAmongOthers(h.peers, out.recipients, member);
    }
  }

  lemma GoneStep(h: Host, member: MemberId, reason: Option<string>)
    ensures Step(h, Gone(member, reason)).Failure? <==>
            Cut(h.peers - {member}, Announced(LeaveRoom(h.room, member, reason)))
  {
  }

  lemma {:induction false} WhenLeavingFails(h: Host, member: MemberId, reason: Option<string>)
    requires Good(h.room)
    ensures Step(h, Gone(member, reason)).Failure? <==>
            && member in h.room.members && member != h.room.host
            && AnyDead(h.peers, h.room.members.Keys - {member})
  {
    GoneStep(h, member, reason);
    WhenLeavingIsRefused(h.room, member, reason);
    DepartureIsCut(h, member, LeaveRoom(h.room, member, reason));
  }

  lemma {:induction false} WhenAStepFails(h: Host, input: Input)
    requires Good(h.room) && AllTicketed(h.peers)
    ensures Step(h, input).Failure? <==> EndsSession(h, input)
  {
    if input.Connect? {
      WhenConnectingFails(h, input.name, input.fingerprint, input.ticket);
    } else if input.Gone? {
      WhenLeavingFails(h, input.member, input.reason);
    } else if input.TransferPrepared? || input.PreparationFailed? {
      var out := Execute(h.room, h.room.host, PreparedCommand(input));
      if out.Applied? {
        CutMeansDead(h.peers, out.recipients, out.event);
      }
    }
  }

  /** After any run, exactly these inputs end it. */
  lemma {:induction false} WhenTheRunEnds(room: Room, inputs: seq<Input>, next: Input)
    requires Good(room) && room.members.Keys == {room.host} && Run(room, inputs).Success?
    ensures Run(room, inputs + [next]).Failure? <==> EndsSession(Run(room, inputs).value.host, next)
  {
    assert (inputs + [next])[..|inputs|] == inputs;
    RunKeepsInv(room, inputs);
    var h := Run(room, inputs).value.host;
    GoodPeersNumbered(h.room, h.peers);
    WhenAStepFails(h, next);
  }

  /**
    A failed preparation closes the host's own channel. When the host has closed its side already and two others are
    left in it, that is refused and ends the session.
  */
  lemma {:induction false} WhenAFailedPreparationEndsTheSession(h: Host, channel: ChannelId)
    requires Good(h.room)
    ensures EndsSession(h, PreparationFailed(channel)) <==>
            || Text.Blank(channel)
            || (channel in h.room.channels &&
                  var participants := h.room.channels[channel].participants;
                  h.room.host !in participants || AnyDead(h.peers, participants - {h.room.host}))
  {
    var event := ChannelClosed(channel, h.room.host, h.room.members[h.room.host].name,
                               Some("sender failed to prepare transfer"));
    assert ValidEvent(event).Valid? <==> !Text.Blank(channel);
    if channel in h.room.channels {
      var participants := h.room.channels[channel].participants;
      assert GoodChannel(h.room.members.Keys, h.room.channels[channel]);
      assert (participants - {h.room.host}) * h.room.members.Keys == participants - {h.room.host};
    }
  }

  /** What becomes of a transfer that the host has prepared on a channel of its own. */
  ghost predicate Preparable(room: Room, channel: ChannelId, offer: TransferOffer) {
    && room.host in room.members && channel in room.channels && room.channels[channel].opener == room.host
    && room.channels[channel].kind == File && WellFormed(UpdateChannelTransfer(channel, None, offer))
  }

  lemma {:induction false} HostsOwnUpdate(room: Room, channel: ChannelId, size: nat, offer: TransferOffer)
    requires Good(room)
    ensures var out := Execute(room, room.host, UpdateChannelTransfer(channel, Some(size), offer));
            && (out.Applied? <==> Preparable(room, channel, offer))
            && (out.Applied? ==>
                  && out.event == UpdateEvent(channel, Some(size), offer)
                  && out.recipients == room.channels[channel].participants - {room.host}
                  && out.room == room.(channels := room.channels[channel :=
                                   room.channels[channel].(size := Some(size), transfer := Some(offer))]))
            && (out.Refused? ==>
                  (Overlooked(out.error) <==> channel in room.channels ==> room.channels[channel].opener != room.host))
  {
    var update := UpdateChannelTransfer(channel, Some(size), offer);
    WhenACommandIsWellFormed(update);
    ValidTogether(UpdateEvent(channel, Some(size), offer), room.host, room.members[room.host].name, update);
    if channel in room.channels {
      assert GoodChannel(room.members.Keys, room.channels[channel]);
    }
  }

  /**
    A prepared transfer is overlooked when its channel is gone or somebody else's. Otherwise it ends the session when
    the channel is not for files, the offer is malformed, or a participant's link is broken.
  */
  lemma {:induction false} WhenAPreparedTransferEndsTheSession(h: Host, channel: ChannelId, size: nat,
                                                               offer: TransferOffer)
    requires Good(h.room)
    ensures EndsSession(h, TransferPrepared(channel, size, offer)) <==>
            && channel in h.room.channels && h.room.channels[channel].opener == h.room.host
            && (|| !Preparable(h.room, channel, offer)
                || AnyDead(h.peers, h.room.channels[channel].participants - {h.room.host}))
  {
    HostsOwnUpdate(h.room, channel, size, offer);
  }

  lemma PreparedIsPut(h: Host, channel: ChannelId, size: nat, offer: TransferOffer, out: Outcome)
    requires out == Execute(h.room, h.room.host, UpdateChannelTransfer(channel, Some(size), offer)) && out.Applied?
    requires Step(h, TransferPrepared(channel, size, offer)).Success?
    ensures Step(h, TransferPrepared(channel, size, offer)).value
         == Host(out.room, Delivered(h.peers, Fanout(out.recipients, out.event)), h.files)
  {
  }

  /** When it does not, the room records size and offer, and the other participants are handed the update. */
  lemma {:induction false} PreparedTransferIsHandedOn(h: Host, channel: ChannelId, size: nat, offer: TransferOffer,
                                                      p: MemberId)
    requires Good(h.room) && Preparable(h.room, channel, offer)
    requires Step(h, TransferPrepared(channel, size, offer)).Success?
    requires p in h.peers && (h.peers[p].ready ==> h.peers[p].pending == [])
    ensures var after, c := Step(h, TransferPrepared(channel, size, offer)).value, h.room.channels[channel];
            && after.room == h.room.(channels :=
                 h.room.channels[channel := c.(size := Some(size), transfer := Some(offer))])
            && p in after.peers
            && SentOrKept(after.peers[p]) == SentOrKept(h.peers[p]) +
                 if p in c.participants - {h.room.host} then [UpdateEvent(channel, Some(size), offer)] else []
  {
    var out := Execute(h.room, h.room.host, UpdateChannelTransfer(channel, Some(size), offer));
    HostsOwnUpdate(h.room, channel, size, offer);
    PreparedIsPut(h, channel, size, offer, out);
    DeliveryTells(h.peers, Fanout(out.recipients, out.event), p);
    SortedAscends(out.recipients);
    AscendingDistinct(Sorted(out.recipients));
    FannedOut(Sorted(out.recipients), out.event, p);
  }

  /** A folder of the host's own that is complete is neither accepted nor waiting any more. */
  lemma {:induction false} CompleteFolderIsDone(h: Host, channel: ChannelId, c: ChannelId)
    ensures Step(h, PathArrived(channel)).Success?
    ensures var after := Step(h, PathArrived(channel)).value;
            && after.room == h.room && after.peers == h.peers
            && (c in after.files.accepted <==> c in h.files.accepted && c != channel)
            && (c in after.files.received <==> c in h.files.received && c != channel)
            && (c in after.files.received ==> after.files.received[c] == h.files.received[c])
  {
    QuietPath(h, channel);
  }

  lemma QuietPath(h: Host, channel: ChannelId)
    ensures Step(h, PathArrived(channel)) == Success(PathKept(h, channel))
  {
  }

  // ----- the joiner's side of an order -----

  datatype Dial = NoDial | DialPeer(local: Member, peer: Member, ticket: string) | RoomNotReady

  /** What a joiner does about a message on its authority link, beside recording it. */
  function DialFor(v: Replica.View, m: AuthorityMessage): Dial {
    if m.Told? || !m.dial || m.peer.id in v.links || v.self.None? || v.self.value == m.peer.id then NoDial
    else if v.self.value !in v.members then RoomNotReady
    else DialPeer(v.members[v.self.value], m.peer, m.ticket)
  }

  /** What reading a message does, an event's transfers included. */
  function Received(v: Replica.View, m: AuthorityMessage): FileFinalisation.Reaction {
    match m
    case Told(event) => FileFinalisation.Handle(v, FileFinalisation.Delivered(event))
    case PeerConnect(peer, ticket, _) =>
      FileFinalisation.Reaction(v.(tickets := v.tickets[peer.id := ticket]), [], false)
  }

  /** What may happen next at a joiner; the links are independent, so in any order. */
  datatype Arrival = FromAuthority | FromPeerLink(event: Event) | LinkUp(member: Member) | LinkDown(id: MemberId)

  function Arrived(v: Replica.View, a: Arrival): FileFinalisation.Reaction
    requires !a.FromAuthority?
  {
    match a
    case FromPeerLink(event) => FileFinalisation.Handle(v, FileFinalisation.Delivered(event))
    case LinkUp(member) =>
      FileFinalisation.Reaction(
        v.(members := if member.id in v.members then v.members else v.members[member.id := member],
           links := v.links + {member.id}), [], false)
    case LinkDown(id) => FileFinalisation.Reaction(v.(links := v.links - {id}), [], false)
  }

  predicate Knows(v: Replica.View, p: MemberId) {
    p in v.members && v.members[p].id == p
  }

  /** A dial order is carried out in the joiner's own name, unless the two are linked already. */
  predicate Obeys(v: Replica.View, m: AuthorityMessage, p: MemberId) {
    m.PeerConnect? && m.dial && m.peer.id !in v.links ==>
      Knows(v, p) && DialFor(v, m) == DialPeer(v.members[p], m.peer, m.ticket)
  }

  /** Along a schedule, with `n` messages of the authority link already read, every order is obeyed until it ends. */
  ghost predicate AlwaysObeys(v: Replica.View, queue: seq<AuthorityMessage>, n: nat, schedule: seq<Arrival>,
                              p: MemberId)
    decreases schedule
  {
    if schedule == [] then true
    else if !schedule[0].FromAuthority? then
      var r := Arrived(v, schedule[0]);
      r.stopped || AlwaysObeys(r.view, queue, n, schedule[1..], p)
    else if n >= |queue| then AlwaysObeys(v, queue, n, schedule[1..], p)
    else
      var r := Received(v, queue[n]);
      Obeys(v, queue[n], p) && (r.stopped || AlwaysObeys(r.view, queue, n + 1, schedule[1..], p))
  }

  // ----- what a joiner knows, by how much of its greeting it has read -----

  ghost predicate KnowsByNow(v: Replica.View, n: nat, k: nat, p: MemberId) {
    && (n > k ==> v.self == Some(p))
    && (n > k + 1 ==> Knows(v, p))
  }

  lemma {:induction false} SnapshotKnows(members: seq<Member>, p: MemberId)
    ensures forall m | m in Replica.SnapshotMap(members) :: Replica.SnapshotMap(members)[m].id == m
    ensures Lists(members, p) ==> p in Replica.SnapshotMap(members)
  {
    if members != [] {
      var n := |members| - 1;
      SnapshotKnows(members[..n], p);
      if Lists(members, p) && members[n].id != p {
        var i :| 0 <= i < |members| && members[i].id == p;
        assert members[..n][i].id == p;
      }
    }
  }

  lemma SparingEventKeeps(v: Replica.View, e: Event, p: MemberId)
    requires SparesMember(e, p)
    ensures var r := FileFinalisation.Handle(v, FileFinalisation.Delivered(e)).view;
            r.self == v.self && (Knows(v, p) ==> Knows(r, p))
  {
    FileFinalisation.HandlingFollowsTheEvent(v, e);
    assert Replica.ApplyEvent(v, e).self == v.self;
    assert Knows(v, p) ==> Knows(Replica.ApplyEvent(v, e), p);
  }

  lemma ArrivalKeeps(v: Replica.View, a: Arrival, n: nat, k: nat, p: MemberId)
    requires !a.FromAuthority? && (a.FromPeerLink? ==> SparesMember(a.event, p))
    requires KnowsByNow(v, n, k, p)
    ensures KnowsByNow(Arrived(v, a).view, n, k, p)
  {
    if a.FromPeerLink? {
      SparingEventKeeps(v, a.event, p);
    }
  }

  lemma MessageKeeps(v: Replica.View, queue: seq<AuthorityMessage>, n: nat, k: nat, p: MemberId)
    requires GreetedAt(queue, p, k) && n < |queue| && KnowsByNow(v, n, k, p)
    ensures KnowsByNow(Received(v, queue[n]).view, n + 1, k, p)
  {
    if n >= k + 2 {
      if queue[n].Told? { SparingEventKeeps(v, queue[n].event, p); }
    } else if n == k + 1 {
      SnapshotKnows(queue[n].event.members, p);
    }
  }

  lemma {:induction false} GreetedJoinerObeys(v: Replica.View, queue: seq<AuthorityMessage>, n: nat, k: nat,
                                              schedule: seq<Arrival>, p: MemberId)
    requires GreetedAt(queue, p, k) && KnowsByNow(v, n, k, p)
    requires forall i | 0 <= i < |schedule| && schedule[i].FromPeerLink? :: SparesMember(schedule[i].event, p)
    ensures AlwaysObeys(v, queue, n, schedule, p)
    decreases schedule
  {
    if schedule != [] {
      assert forall i | 0 <= i < |schedule[1..]| :: schedule[1..][i] == schedule[i + 1];
      if !schedule[0].FromAuthority? {
        ArrivalKeeps(v, schedule[0], n, k, p);
        GreetedJoinerObeys(Arrived(v, schedule[0]).view, queue, n, k, schedule[1..], p);
      } else if n >= |queue| {
        GreetedJoinerObeys(v, queue, n, k, schedule[1..], p);
      } else {
        MessageKeeps(v, queue, n, k, p);
        GreetedJoinerObeys(Received(v, queue[n]).view, queue, n + 1, k, schedule[1..], p);
      }
    }
  }

  lemma {:induction false} EventsForSpare(room: Room, log: seq<Routed>, p: MemberId)
    requires GoodLog(room, log)
    ensures forall i | 0 <= i < |EventsFor(log, p)| :: SparesMember(EventsFor(log, p)[i], p)
  {
    if log != [] {
      EventsForSpare(room, log[..|log| - 1], p);
    }
  }

  /**
    After any run, whatever the order in which a joiner reads its authority link and its other links: each order to
    dial finds the joiner greeted, so it dials in its own name, as long as its session lasts. Nothing the host sends
    over the peer link gets in the way.
  */
  lemma {:induction false} DialOrdersFindTheLocalMember(room: Room, inputs: seq<Input>, p: MemberId,
                                                        hostTicket: Option<string>,
                                     schedule: seq<Arrival>)
    requires Good(room) && room.members.Keys == {room.host} && Run(room, inputs).Success?
    requires p in Run(room, inputs).value.host.peers
    requires forall i | 0 <= i < |schedule| && schedule[i].FromPeerLink? :: SparesMember(schedule[i].event, p)
    ensures var peer := Run(room, inputs).value.host.peers[p];
            && AlwaysObeys(Replica.Blank(hostTicket), peer.authority, 0, schedule, p)
            && forall e | e in peer.sent + peer.pending :: SparesMember(e, p)
  {
    RunKeepsInv(room, inputs);
    var w := Run(room, inputs).value;
    assert GoodPeer(w.host.room, p, w.host.peers[p]);
    var k: nat :| GreetedAt(w.host.peers[p].authority, p, k);
    GreetedJoinerObeys(Replica.Blank(hostTicket), w.host.peers[p].authority, 0, k, schedule, p);
    EventsForSpare(w.host.room, w.log, p);
    assert w.host.peers[p].sent + w.host.peers[p].pending == EventsFor(w.log, p);
  }
}
