/** The host's mutable room, each method proved to do what `RoomAuthority` says. */
module RoomEngineObject {
  import opened Wrappers
  import opened Ordering
  import opened RoomProtocol
  import opened RoomAuthority

  /** What a method owes its caller, given the specified outcome and the room before and after. */
  ghost predicate Meets(out: Outcome, before: Room, after: Room, r: Result<seq<Routed>, RoomError>) {
    match out
    case Applied(room, recipients, event) => after == room && r == Success(Fanout(recipients, event))
    case Refused(error) => after == before && r == Failure(error)
  }

  lemma FanoutExtends(done: seq<MemberId>, next: MemberId, event: Event)
    ensures FanoutTo(done + [next], event) == FanoutTo(done, event) + [Routed(next, event)]
  {
  }

  /** The channels once the member has been taken out of those in `done`. */
  ghost function Stripped(channels: map<ChannelId, Channel>, done: seq<ChannelId>, member: MemberId)
    : map<ChannelId, Channel>
  {
    map c | c in channels ::
      if c in done then channels[c].(participants := channels[c].participants - {member}) else channels[c]
  }

  lemma StrippedNext(channels: map<ChannelId, Channel>, keys: seq<ChannelId>, i: nat, member: MemberId)
    requires i < |keys| && keys[i] in channels && keys[i] !in keys[..i]
    ensures var rest := channels[keys[i]].participants - {member};
            Stripped(channels, keys[..i + 1], member)
              == Stripped(channels, keys[..i], member)[keys[i] := channels[keys[i]].(participants := rest)]
  {
    assert keys[..i + 1] == keys[..i] + [keys[i]];
  }

  /** Those of the channels in `done` that the member's departure leaves with fewer than two participants. */
  function Emptied(channels: map<ChannelId, Channel>, done: seq<ChannelId>, member: MemberId): seq<ChannelId>
    requires forall c | c in done :: c in channels
  {
    if done == [] then []
    else
      var last := done[|done| - 1];
      Emptied(channels, done[..|done| - 1], member)
        + (if |channels[last].participants - {member}| < 2 then [last] else [])
  }

  lemma {:induction false} EmptiedAre(channels: map<ChannelId, Channel>, done: seq<ChannelId>, member: MemberId)
    requires forall c | c in done :: c in channels
    ensures forall c :: c in Emptied(channels, done, member) <==>
                        c in done && |channels[c].participants - {member}| < 2
  {
    if done != [] {
      var n := |done| - 1;
      EmptiedAre(channels, done[..n], member);
      assert done == done[..n] + [done[n]];
    }
  }

  function Elements(keys: seq<ChannelId>): set<ChannelId> {
    set c | c in keys
  }

  lemma RemoveNext(channels: map<ChannelId, Channel>, keys: seq<ChannelId>, i: nat)
    requires i < |keys|
    ensures channels - Elements(keys[..i + 1]) == channels - Elements(keys[..i]) - {keys[i]}
  {
    assert keys[..i + 1] == keys[..i] + [keys[i]];
  }

  /** How far the loop over the channels has come. */
  ghost predicate Stripping(was: map<ChannelId, Channel>, now: map<ChannelId, Channel>, keys: seq<ChannelId>, i: nat,
                            member: MemberId, emptied: seq<ChannelId>)
  {
    && i <= |keys| && (forall c | c in keys :: c in was)
    && now == Stripped(was, keys[..i], member)
    && emptied == Emptied(was, keys[..i], member)
  }

  lemma StrippingNext(was: map<ChannelId, Channel>, now: map<ChannelId, Channel>, keys: seq<ChannelId>, i: nat,
                      member: MemberId, emptied: seq<ChannelId>)
    requires Stripping(was, now, keys, i, member, emptied) && i < |keys| && keys[i] !in keys[..i]
    ensures keys[i] in now && now[keys[i]] == was[keys[i]]
    ensures var rest := was[keys[i]].participants - {member};
            Stripping(was, now[keys[i] := was[keys[i]].(participants := rest)], keys, i + 1, member,
                      emptied + (if |rest| < 2 then [keys[i]] else []))
  {
    StrippedNext(was, keys, i, member);
    assert keys[..i + 1][..i] == keys[..i];
  }

  lemma StrippingStarts(was: map<ChannelId, Channel>, keys: seq<ChannelId>, member: MemberId)
    requires forall c | c in keys :: c in was
    ensures Stripping(was, was, keys, 0, member, [])
  {
  }

  /** Stripping a member everywhere and then removing the emptied channels is leaving them all. */
  lemma StrippedAndPruned(was: map<ChannelId, Channel>, now: map<ChannelId, Channel>, keys: seq<ChannelId>,
                          member: MemberId, emptied: seq<ChannelId>)
    requires (forall c :: c in keys <==> c in was) && Stripping(was, now, keys, |keys|, member, emptied)
    ensures now - Elements(emptied) == Without(was, member)
  {
    assert keys[..|keys|] == keys;
    EmptiedAre(was, keys, member);
  }

  lemma AllButTheLeaver(rest: set<MemberId>, member: MemberId)
    requires member !in rest
    ensures (rest - {member}) * rest == rest
  {
  }

  lemma ExecuteIsOpen(room: Room, from: MemberId, command: Command)
    requires from in room.members && command.OpenChannel?
    ensures Execute(room, from, command)
         == Open(room, ChannelOpened(command.channel, command.kind, from, room.members[from].name, command.to,
                                     command.name, command.size, command.mime, command.transfer))
  {
  }

  lemma ExecuteIsReject(room: Room, member: MemberId, channel: ChannelId, reason: Option<string>)
    requires member in room.members
    ensures Execute(room, member, Command.RejectChannel(channel, reason))
         == OnChannel(room, member, channel, ChannelRejected(channel, member, room.members[member].name, reason), true)
  {
  }

  lemma ExecuteIsClose(room: Room, member: MemberId, channel: ChannelId, reason: Option<string>)
    requires member in room.members
    ensures Execute(room, member, Command.CloseChannel(channel, reason))
         == OnChannel(room, member, channel, ChannelClosed(channel, member, room.members[member].name, reason), true)
  {
  }

  class RoomEngine {
    var roomId: string
    var hostMember: MemberId
    var members: map<MemberId, Member>
    var channels: map<ChannelId, Channel>
    var nextMemberIndex: nat

    ghost function View(): Room
      reads this
    {
      Room(roomId, hostMember, members, channels, nextMemberIndex)
    }

    constructor FromRoom(room: Room)
      ensures View() == room
    {
      roomId, hostMember, members, channels, nextMemberIndex :=
        room.id, room.host, room.members, room.channels, room.nextIndex;
    }

    static method New(id: string, hostName: string, fingerprint: Option<string>)
      returns (r: Result<RoomEngine, RoomError>)
      ensures match NewRoom(id, hostName, fingerprint)
              case Success(room) => r.Success? && fresh(r.value) && r.value.View() == room
              case Failure(error) => r == Failure(error)
    {
      var created := NewRoom(id, hostName, fingerprint);
      if created.Failure? {
        return Failure(created.error);
      }
      var engine := new RoomEngine.FromRoom(created.value);
      r := Success(engine);
    }

    /** The iterator chain shared by every routing method: candidates other than the sender who are members. */
    method RouteAmong(candidates: set<MemberId>, sender: MemberId, event: Event) returns (routed: seq<Routed>)
      ensures routed == Fanout((candidates - {sender}) * members.Keys, event)
    {
      routed := [];
      var keys := Sorted(candidates);
      SortedAscends(candidates);
      ghost var chosen: seq<MemberId> := [];
      for i := 0 to |keys|
        invariant Ascending(chosen)
        invariant forall x :: x in chosen <==> x in keys[..i] && x != sender && x in members
        invariant routed == FanoutTo(chosen, event)
      {
        if keys[i] != sender && keys[i] in members {
          FanoutExtends(chosen, keys[i], event);
          forall j | 0 <= j < |chosen| ensures Below(chosen[j], keys[i]) {
            assert chosen[j] in keys[..i];
          }
          chosen := chosen + [keys[i]];
          routed := routed + [Routed(keys[i], event)];
        }
      }
      assert keys[..|keys|] == keys;
      AscendingIsSorted(chosen, (candidates - {sender}) * members.Keys);
    }

    method Join(name: string, fingerprint: Option<string>)
      returns (r: Result<seq<Routed>, RoomError>, toJoiner: seq<Event>)
      modifies this
      ensures Meets(JoinRoom(old(View()), name, fingerprint), old(View()), View(), r)
      ensures r.Success? ==> toJoiner == Greeting(View(), MemberName(old(nextMemberIndex)))
    {
      var member := Member(MemberName(nextMemberIndex), name, fingerprint);
      toJoiner := [];
      if ValidMember(member).Invalid? {
        return Failure(Protocol(ValidMember(member).error)), [];
      }
      var existing := Sorted(members.Keys);
      members := members[member.id := member];
      nextMemberIndex := nextMemberIndex + 1;
      toJoiner := [RoomWelcome(roomId, member.id, hostMember), MemberSnapshot(Snapshot(members))];
      r := Success(FanoutTo(existing, MemberJoined(member)));
    }

    /** Takes the member out of every channel and reports those left with fewer than two participants. */
    method StripMember(member: MemberId) returns (emptied: seq<ChannelId>, ghost keys: seq<ChannelId>)
      modifies this`channels
      ensures forall c :: c in keys <==> c in old(channels)
      ensures Stripping(old(channels), channels, keys, |keys|, member, emptied)
    {
      var sorted := Sorted(channels.Keys);
      keys := sorted;
      emptied := [];
      ghost var was := channels;
      SortedAscends(channels.Keys);
      AscendingDistinct(sorted);
      StrippingStarts(was, sorted, member);
      for i := 0 to |sorted|
        invariant Stripping(was, channels, sorted, i, member, emptied)
      {
        StrippingNext(was, channels, sorted, i, member, emptied);
        var rest := channels[sorted[i]].participants - {member};
        channels := channels[sorted[i] := channels[sorted[i]].(participants := rest)];
        if |rest| < 2 {
          emptied := emptied + [sorted[i]];
        } else {
          assert emptied + [] == emptied;
        }
      }
    }

    method PruneMemberFromChannels(member: MemberId)
      modifies this`channels
      ensures channels == Without(old(channels), member)
    {
      ghost var was := channels;
      var emptied, keys := StripMember(member);
      StrippedAndPruned(was, channels, keys, member, emptied);
      RemoveAll(emptied);
    }

    method RemoveAll(doomed: seq<ChannelId>)
      modifies this`channels
      ensures channels == old(channels) - Elements(doomed)
    {
      ghost var was := channels;
      assert was - Elements([]) == was;
      for i := 0 to |doomed|
        invariant channels == was - Elements(doomed[..i])
      {
        RemoveNext(was, doomed, i);
        channels := channels - {doomed[i]};
      }
      assert doomed[..|doomed|] == doomed;
    }

    method Leave(member: MemberId, reason: Option<string>) returns (r: Result<seq<Routed>, RoomError>)
      modifies this
      ensures Meets(LeaveRoom(old(View()), member, reason), old(View()), View(), r)
    {
      if member == hostMember {
        return Failure(HostCannotLeaveRoom);
      }
      if member !in members {
        return Failure(UnknownMember);
      }
      members := members - {member};
      PruneMemberFromChannels(member);
      var routed := RouteAmong(members.Keys, member, MemberLeft(member, reason));
      AllButTheLeaver(members.Keys, member);
      r := Success(routed);
    }

    method RouteEvent(sender: MemberId, to: Route, event: Event) returns (r: Result<seq<Routed>, RoomError>)
      ensures match RouteTargets(View(), sender, to)
              case Success(targets) => r == Success(Fanout(targets, event))
              case Failure(error) => r == Failure(error)
    {
      if sender !in members {
        return Failure(UnknownMember);
      }
      match to
      case All =>
        var routed := RouteAmong(members.Keys, sender, event);
        assert (members.Keys - {sender}) * members.Keys == members.Keys - {sender};
        return Success(routed);
      case To(member) =>
        if member !in members {
          return Failure(UnknownMember);
        }
        if member == sender {
          return Success([]);
        }
        AscendingIsSorted([member], {member} - {sender});
        assert FanoutTo([member], event) == [Routed(member, event)];
        return Success([Routed(member, event)]);
    }

    method SendChat(from: MemberId, to: Route, text: string) returns (r: Result<seq<Routed>, RoomError>)
      ensures Meets(Execute(View(), from, Command.SendChat(to, text)), View(), View(), r)
    {
      if from !in members {
        return Failure(UnknownMember);
      }
      var event := ChatReceived(from, members[from].name, to, text);
      if ValidEvent(event).Invalid? {
        return Failure(Protocol(ValidEvent(event).error));
      }
      r := RouteEvent(from, to, event);
    }

    method ChannelParticipants(sender: MemberId, to: Route) returns (r: Result<set<MemberId>, RoomError>)
      ensures sender !in members || (to.To? && to.member !in members) ==> r == Failure(UnknownMember)
      ensures sender in members && (to.To? ==> to.member in members) ==>
        r == Success(Participants(members.Keys, sender, to))
    {
      if sender !in members {
        return Failure(UnknownMember);
      }
      var participants := {sender};
      match to {
        case All =>
          var keys := Sorted(members.Keys);
          for i := 0 to |keys|
            invariant participants == {sender} + (set x | x in keys[..i])
          {
            participants := participants + {keys[i]};
          }
          assert (set x | x in keys[..|keys|]) == members.Keys;
        case To(member) =>
          if member !in members {
            return Failure(UnknownMember);
          }
          participants := participants + {member};
      }
      r := Success(participants);
    }

    method OpenChannel(from: MemberId, channel: ChannelId, kind: ChannelKind, to: Route, name: Option<string>,
                       size: Option<nat>, mime: Option<string>, transfer: Option<TransferOffer>)
      returns (r: Result<seq<Routed>, RoomError>)
      modifies this`channels
      ensures Meets(Execute(old(View()), from, Command.OpenChannel(channel, kind, to, name, size, mime, transfer)),
                    old(View()), View(), r)
    {
      if from !in members {
        return Failure(UnknownMember);
      }
      ExecuteIsOpen(View(), from, Command.OpenChannel(channel, kind, to, name, size, mime, transfer));
      if channel in channels {
        return Failure(ChannelAlreadyOpen);
      }
      var joined := ChannelParticipants(from, to);
      if joined.Failure? {
        return Failure(joined.error);
      }
      var event := ChannelOpened(channel, kind, from, members[from].name, to, name, size, mime, transfer);
      if ValidEvent(event).Invalid? {
        return Failure(Protocol(ValidEvent(event).error));
      }
      var routed := CreateChannel(event, joined.value);
      assert (joined.value - {from}) * members.Keys == joined.value - {from};
      r := Success(routed);
    }

    method CreateChannel(event: Event, participants: set<MemberId>) returns (routed: seq<Routed>)
      requires event.ChannelOpened?
      modifies this`channels
      ensures channels == old(channels)[event.channel :=
        Channel(event.from, event.kind, participants, event.name, event.size, event.mime, event.transfer)]
      ensures routed == Fanout((participants - {event.from}) * members.Keys, event)
    {
      channels := channels[event.channel :=
        Channel(event.from, event.kind, participants, event.name, event.size, event.mime, event.transfer)];
      routed := RouteAmong(participants, event.from, event);
    }

    method UpdateChannelTransfer(member: MemberId, channel: ChannelId, size: Option<nat>, offer: TransferOffer)
      returns (r: Result<seq<Routed>, RoomError>)
      modifies this`channels
      ensures Meets(Execute(old(View()), member, Command.UpdateChannelTransfer(channel, size, offer)),
                    old(View()), View(), r)
    {
      if member !in members {
        return Failure(UnknownMember);
      }
      if channel !in channels {
        return Failure(UnknownChannel);
      }
      if channels[channel].opener != member {
        return Failure(NotChannelOpener);
      }
      if channels[channel].kind != File {
        return Failure(ChannelTransferUpdateUnsupported);
      }
      var event := UpdateEvent(channel, size, offer);
      if ValidEvent(event).Invalid? {
        return Failure(Protocol(ValidEvent(event).error));
      }
      channels := channels[channel := channels[channel].(size := event.size, transfer := Some(event.offer))];
      var routed := RouteAmong(channels[channel].participants, member, event);
      r := Success(routed);
    }

    method RouteChannelEvent(sender: MemberId, channel: ChannelId, event: Event)
      returns (r: Result<seq<Routed>, RoomError>)
      ensures match ChannelTargets(View(), sender, channel, event)
              case Success(targets) => r == Success(Fanout(targets, event))
              case Failure(error) => r == Failure(error)
    {
      if sender !in members {
        return Failure(UnknownMember);
      }
      if ValidEvent(event).Invalid? {
        return Failure(Protocol(ValidEvent(event).error));
      }
      if channel !in channels {
        return Failure(UnknownChannel);
      }
      if event.ChannelData? && channels[channel].kind in {File, Pipe} {
        return Failure(ChannelDataUnsupported);
      }
      if sender !in channels[channel].participants {
        return Failure(MemberNotInChannel);
      }
      var routed := RouteAmong(channels[channel].participants, sender, event);
      r := Success(routed);
    }

    method RemoveChannelParticipant(channel: ChannelId, member: MemberId)
      modifies this`channels
      ensures channels == LeaveChannel(old(channels), channel, member)
    {
      if channel in channels {
        var rest := channels[channel].participants - {member};
        channels := channels[channel := channels[channel].(participants := rest)];
        if |rest| < 2 {
          channels := channels - {channel};
        }
      }
    }

    method AcceptChannel(member: MemberId, channel: ChannelId) returns (r: Result<seq<Routed>, RoomError>)
      ensures Meets(Execute(View(), member, Command.AcceptChannel(channel)), View(), View(), r)
    {
      if member !in members {
        return Failure(UnknownMember);
      }
      r := RouteChannelEvent(member, channel, ChannelAccepted(channel, member, members[member].name));
    }

    method SendChannelData(from: MemberId, channel: ChannelId, body: string)
      returns (r: Result<seq<Routed>, RoomError>)
      ensures Meets(Execute(View(), from, Command.SendChannelData(channel, body)), View(), View(), r)
    {
      if from !in members {
        return Failure(UnknownMember);
      }
      r := RouteChannelEvent(from, channel, ChannelData(channel, from, members[from].name, body));
    }

    method RejectChannel(member: MemberId, channel: ChannelId, reason: Option<string>)
      returns (r: Result<seq<Routed>, RoomError>)
      modifies this`channels
      ensures Meets(Execute(old(View()), member, Command.RejectChannel(channel, reason)), old(View()), View(), r)
    {
      if member !in members {
        return Failure(UnknownMember);
      }
      ExecuteIsReject(View(), member, channel, reason);
      r := RouteChannelEvent(member, channel, ChannelRejected(channel, member, members[member].name, reason));
      if r.Success? {
        RemoveChannelParticipant(channel, member);
      }
    }

    method CloseChannel(member: MemberId, channel: ChannelId, reason: Option<string>)
      returns (r: Result<seq<Routed>, RoomError>)
      modifies this`channels
      ensures Meets(Execute(old(View()), member, Command.CloseChannel(channel, reason)), old(View()), View(), r)
    {
      if member !in members {
        return Failure(UnknownMember);
      }
      ExecuteIsClose(View(), member, channel, reason);
      r := RouteChannelEvent(member, channel, ChannelClosed(channel, member, members[member].name, reason));
      if r.Success? {
        RemoveChannelParticipant(channel, member);
      }
    }
  }
}
