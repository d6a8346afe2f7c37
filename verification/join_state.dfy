/** A joiner's mutable state, each method proved to do what `Replica` says. */
module JoinStateObject {
  import opened Wrappers
  import opened Ordering
  import opened RoomProtocol
  import Replica

  type JoinChannel = Replica.JoinChannel

  /** The channels once the member has been taken out of those in `done`. */
  ghost function Pruned(self: Option<MemberId>, channels: map<ChannelId, JoinChannel>, done: seq<ChannelId>,
                        member: MemberId): map<ChannelId, JoinChannel>
  {
    map c | c in channels && (c in done ==> Replica.Kept(self, channels[c].participants - {member})) ::
      if c in done then channels[c].(participants := channels[c].participants - {member}) else channels[c]
  }

  lemma PrunedNext(self: Option<MemberId>, channels: map<ChannelId, JoinChannel>, keys: seq<ChannelId>, i: nat,
                   member: MemberId)
    requires i < |keys| && keys[i] in channels && keys[i] !in keys[..i]
    ensures Pruned(self, channels, keys[..i + 1], member)
         == Replica.LeaveChannel(self, Pruned(self, channels, keys[..i], member), keys[i], member)
  {
    assert keys[..i + 1] == keys[..i] + [keys[i]];
  }

  class JoinState {
    var selfMember: Option<MemberId>
    var hostMember: Option<MemberId>
    var members: map<MemberId, Member>
    var memberTickets: map<MemberId, string>
    var channels: map<ChannelId, JoinChannel>
    var peerLinks: set<MemberId>
    var pendingAcceptedFiles: set<ChannelId>
    var pendingReceivedFiles: map<ChannelId, Replica.ReceivedFile>
    var pendingHostTicket: Option<string>

    ghost function View(): Replica.View
      reads this
    {
      Replica.View(selfMember, hostMember, members, memberTickets, channels, peerLinks,
                   pendingAcceptedFiles, pendingReceivedFiles, pendingHostTicket)
    }

    constructor (hostTicket: Option<string>)
      ensures View() == Replica.Blank(hostTicket)
    {
      selfMember, hostMember := None, None;
      members, memberTickets, channels, peerLinks := map[], map[], map[], {};
      pendingAcceptedFiles, pendingReceivedFiles, pendingHostTicket := {}, map[], hostTicket;
    }

    method RemoveJoinChannelParticipant(channel: ChannelId, member: MemberId)
      modifies this`channels
      ensures channels == Replica.LeaveChannel(selfMember, old(channels), channel, member)
    {
      if channel in channels {
        var rest := channels[channel].participants - {member};
        channels := channels[channel := channels[channel].(participants := rest)];
        if |rest| < 2 || (selfMember.Some? && selfMember.value !in rest) {
          channels := channels - {channel};
        }
      }
    }

    method PruneJoinChannelsForMember(member: MemberId)
      modifies this`channels
      ensures channels == Replica.Without(selfMember, old(channels), member)
    {
      var keys := Sorted(channels.Keys);
      ghost var was := channels;
      SortedAscends(channels.Keys);
      AscendingDistinct(keys);
      for i := 0 to |keys|
        invariant channels == Pruned(selfMember, was, keys[..i], member)
      {
        PrunedNext(selfMember, was, keys, i, member);
        RemoveJoinChannelParticipant(keys[i], member);
      }
      assert keys[..|keys|] == keys;
    }

    /** Later entries of a snapshot win, as collecting into a map has it. */
    method CollectMembers(listed: seq<Member>) returns (collected: map<MemberId, Member>)
      ensures collected == Replica.SnapshotMap(listed)
    {
      collected := map[];
      for i := 0 to |listed|
        invariant collected == Replica.SnapshotMap(listed[..i])
      {
        assert listed[..i + 1][..i] == listed[..i];
        collected := collected[listed[i].id := listed[i]];
      }
      assert listed[..|listed|] == listed;
    }

    method EventParticipants(from: MemberId, to: Route) returns (r: Option<set<MemberId>>)
      ensures r == Replica.EventParticipants(members, from, to)
    {
      if from !in members {
        return None;
      }
      var participants := {from};
      match to {
        case All => participants := participants + members.Keys;
        case To(member) =>
          if member !in members {
            return None;
          }
          participants := participants + {member};
      }
      r := Some(participants);
    }

    method SetTransfer(channel: ChannelId, size: Option<nat>, offer: TransferOffer)
      modifies this`channels
      ensures View() == Replica.SetTransfer(old(View()), channel, size, offer)
    {
      if channel in channels {
        channels := channels[channel := channels[channel].(size := size, transfer := Some(offer))];
      }
    }

    method DropOut(channel: ChannelId, member: MemberId)
      modifies this
      ensures View() == Replica.DropOut(old(View()), channel, member)
    {
      RemoveJoinChannelParticipant(channel, member);
      var keepPending :=
        selfMember.Some? && channel in channels && selfMember.value in channels[channel].participants;
      if !keepPending {
        pendingAcceptedFiles := pendingAcceptedFiles - {channel};
      }
      pendingReceivedFiles := pendingReceivedFiles - {channel};
    }

    method OpenChannel(event: Event)
      requires event.ChannelOpened?
      modifies this`channels
      ensures View() == Replica.ApplyEvent(old(View()), event)
    {
      var participants := EventParticipants(event.from, event.to);
      if participants.Some? {
        channels := channels[event.channel :=
          Replica.JoinChannel(event.from, event.kind, participants.value, event.name, event.size, event.transfer,
                              selfMember == Some(event.from))];
      }
    }

    method MemberLeft(event: Event)
      requires event.MemberLeft?
      modifies this
      ensures View() == Replica.ApplyEvent(old(View()), event)
    {
      members := members - {event.member};
      memberTickets := memberTickets - {event.member};
      peerLinks := peerLinks - {event.member};
      PruneJoinChannelsForMember(event.member);
    }

    method PathReceived(channel: ChannelId)
      modifies this
      ensures View() == old(View()).(
        channels :=
          if channel in old(channels)
          then old(channels)[channel := old(channels)[channel].(localFileReady := true)]
          else old(channels),
        pendingAccepted := old(pendingAcceptedFiles) - {channel},
        pendingReceived := old(pendingReceivedFiles) - {channel})
    {
      if channel in channels {
        channels := channels[channel := channels[channel].(localFileReady := true)];
      }
      pendingAcceptedFiles := pendingAcceptedFiles - {channel};
      pendingReceivedFiles := pendingReceivedFiles - {channel};
    }

    method ApplyMachineEvent(event: Event)
      modifies this
      ensures View() == Replica.ApplyEvent(old(View()), event)
    {
      match event
      case RoomWelcome(_, self, host) =>
        selfMember, hostMember := Some(self), Some(host);
        if pendingHostTicket.Some? {
          memberTickets := memberTickets[host := pendingHostTicket.value];
        }
      case MemberSnapshot(listed) =>
        var collected := CollectMembers(listed);
        members := collected;
      case MemberJoined(member) => members := members[member.id := member];
      case MemberLeft(_, _) => MemberLeft(event);
      case RoomClosed(_) =>
        members, memberTickets, channels, peerLinks := map[], map[], map[], {};
      case ChannelOpened(_, _, _, _, _, _, _, _, _) => OpenChannel(event);
      case ChannelTransferReady(channel, size, offer) => SetTransfer(channel, size, offer);
      case ChannelTransferFinalized(channel, size, offer) => SetTransfer(channel, size, offer);
      case ChannelPathReceived(channel, _, _) => PathReceived(channel);
      case ChannelClosed(channel, member, _, _) => DropOut(channel, member);
      case ChannelRejected(channel, member, _, _) => DropOut(channel, member);
      case _ =>
    }

    /** The part of a command that the joiner carries out on itself right after sending it. */
    method ApplyOwnCommand(self: MemberId, localName: string, command: Command)
      modifies this
      ensures View() == Replica.OwnEffect(old(View()), self, localName, command)
    {
      match command
      case OpenChannel(channel, kind, to, name, size, mime, transfer) =>
        ApplyMachineEvent(ChannelOpened(channel, kind, self, localName, to, name, size, mime, transfer));
      case UpdateChannelTransfer(channel, size, offer) => ApplyMachineEvent(UpdateEvent(channel, size, offer));
      case RejectChannel(channel, _) => channels := channels - {channel};
      case CloseChannel(channel, _) => channels := channels - {channel};
      case _ =>
    }

    /** The iterator chain of both recipient queries: everybody but oneself, in key order. */
    method Others(self: MemberId, everybody: set<MemberId>) returns (others: seq<MemberId>)
      ensures others == Sorted(everybody - {self})
    {
      var keys := Sorted(everybody);
      SortedAscends(everybody);
      others := [];
      for i := 0 to |keys|
        invariant Ascending(others)
        invariant forall x :: x in others <==> x in keys[..i] && x != self
      {
        if keys[i] != self {
          forall j | 0 <= j < |others| ensures Below(others[j], keys[i]) {
            assert others[j] in keys[..i];
          }
          others := others + [keys[i]];
        }
      }
      assert keys[..|keys|] == keys;
      AscendingIsSorted(others, everybody - {self});
    }

    method ChatRecipients(self: MemberId, route: Route) returns (r: Result<seq<MemberId>, Replica.Refusal>)
      ensures r == Replica.ChatRecipients(self, route, members)
    {
      match route
      case All =>
        var others := Others(self, members.Keys);
        r := Success(others);
      case To(member) =>
        if member == self {
          return Success([]);
        }
        if member !in members {
          return Failure(Replica.UnknownMember);
        }
        r := Success([member]);
    }

    method ChannelRecipients(self: MemberId, channel: ChannelId) returns (r: Result<seq<MemberId>, Replica.Refusal>)
      ensures r == Replica.ChannelRecipients(self, channel, channels)
    {
      if channel !in channels {
        return Failure(Replica.UnknownChannel);
      }
      if channels[channel].kind == File {
        return Failure(Replica.ChannelDataUnsupported);
      }
      if self !in channels[channel].participants {
        return Failure(Replica.MemberNotInChannel);
      }
      var others := Others(self, channels[channel].participants);
      r := Success(others);
    }
  }
}
