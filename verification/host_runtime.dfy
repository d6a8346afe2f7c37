/** The host's event handlers over its room and its peers, each proved to do what `HostLinks` says. */
module HostRuntime {
  import opened Wrappers
  import opened Ordering
  import opened RoomProtocol
  import opened RoomAuthority
  import opened RoomEngineObject
  import opened Paths
  import opened FileReceive
  import opened HostLinks
  import opened Mesh
  import opened JoinStateObject
  import FileFinalisation

  lemma TellNothing(peer: PeerHandle)
    ensures TellAll(peer, []) == peer
  {
    assert peer.sent + [] == peer.sent && peer.pending + [] == peer.pending;
  }

  lemma TellOneMore(peer: PeerHandle, events: seq<Event>, next: Event)
    ensures TellAll(TellAll(peer, events), [next]) == TellAll(peer, events + [next])
  {
    assert peer.sent + events + [next] == peer.sent + (events + [next]);
    assert peer.pending + events + [next] == peer.pending + (events + [next]);
  }

  lemma NothingDelivered(peers: map<MemberId, PeerHandle>)
    ensures Delivered(peers, []) == peers
  {
    forall p | p in peers ensures TellAll(peers[p], []) == peers[p] { TellNothing(peers[p]); }
  }

  lemma EventsForNext(routed: seq<Routed>, i: nat, p: MemberId)
    requires i < |routed|
    ensures EventsFor(routed[..i + 1], p)
         == if p == routed[i].recipient then EventsFor(routed[..i], p) + [routed[i].event]
            else EventsFor(routed[..i], p)
  {
    assert routed[..i + 1][..i] == routed[..i];
    assert EventsFor(routed[..i], p) + [] == EventsFor(routed[..i], p);
  }

  lemma DeliveredNext(peers: map<MemberId, PeerHandle>, routed: seq<Routed>, i: nat)
    requires i < |routed|
    ensures var before, next := Delivered(peers, routed[..i]), routed[i];
            Delivered(peers, routed[..i + 1])
              == if next.recipient in peers
                 then before[next.recipient := TellAll(before[next.recipient], [next.event])]
                 else before
  {
    var next := routed[i];
    forall p | p in peers ensures TellAll(peers[p], EventsFor(routed[..i + 1], p))
      == if p == next.recipient then TellAll(TellAll(peers[p], EventsFor(routed[..i], p)), [next.event])
         else TellAll(peers[p], EventsFor(routed[..i], p)) {
      EventsForNext(routed, i, p);
      TellOneMore(peers[p], EventsFor(routed[..i], p), next.event);
    }
  }

  lemma DialOrderedNext(peers: map<MemberId, PeerHandle>, ids: seq<MemberId>, i: nat, newcomer: PeerHandle)
    requires i < |ids| && ids[i] in peers && ids[i] !in ids[..i] && newcomer.ticket.Some?
    ensures var before := DialOrdered(peers, ids[..i], newcomer);
            DialOrdered(peers, ids[..i + 1], newcomer)
              == before[ids[i] :=
                   before[ids[i]].(authority := before[ids[i]].authority + [Introduction(newcomer, true)])]
  {
    assert ids[..i + 1] == ids[..i] + [ids[i]];
  }

  lemma EverybodyIntroduced(peers: map<MemberId, PeerHandle>, orders: seq<AuthorityMessage>)
    requires var ids := Sorted(peers.Keys);
             |orders| == |ids| && forall i | 0 <= i < |ids| ::
               peers[ids[i]].ticket.Some? && orders[i] == Introduction(peers[ids[i]], false)
    ensures AllTicketed(peers) && orders == Introductions(peers, Sorted(peers.Keys))
  {
    var ids := Sorted(peers.Keys);
    forall p | p in peers ensures peers[p].ticket.Some? {
      assert p in ids;
      var i :| 0 <= i < |ids| && ids[i] == p;
      assert orders[i] == orders[i];
    }
  }

  /** The first i of the existing peers and the newcomer have been told about each other. */
  ghost predicate Introducing(was: map<MemberId, PeerHandle>, peers: map<MemberId, PeerHandle>, ids: seq<MemberId>,
                              i: nat, newPeer: PeerHandle, orders: seq<AuthorityMessage>)
  {
    && newPeer.ticket.Some? && |orders| == i <= |ids|
    && (forall j | 0 <= j < |ids| :: ids[j] in was)
    && (forall j | 0 <= j < i :: was[ids[j]].ticket.Some? && orders[j] == Introduction(was[ids[j]], false))
    && peers == DialOrdered(was, ids[..i], newPeer)
  }

  lemma IntroducingStarts(was: map<MemberId, PeerHandle>, newPeer: PeerHandle)
    requires newPeer.ticket.Some?
    ensures Introducing(was, was, Sorted(was.Keys), 0, newPeer, [])
  {
  }

  lemma IntroducingNext(was: map<MemberId, PeerHandle>, peers: map<MemberId, PeerHandle>, ids: seq<MemberId>,
                        i: nat, newPeer: PeerHandle, orders: seq<AuthorityMessage>)
    requires Introducing(was, peers, ids, i, newPeer, orders) && i < |ids| && ids[i] !in ids[..i]
    ensures ids[i] in peers && peers[ids[i]] == was[ids[i]]
    ensures was[ids[i]].ticket.Some? ==>
      var after := peers[ids[i] := was[ids[i]].(authority := was[ids[i]].authority + [Introduction(newPeer, true)])];
      Introducing(was, after, ids, i + 1, newPeer, orders + [Introduction(was[ids[i]], false)])
  {
    DialOrderedNext(was, ids, i, newPeer);
  }

  lemma {:induction false} IntroducingEnds(was: map<MemberId, PeerHandle>, peers: map<MemberId, PeerHandle>,
                                           newPeer: PeerHandle,
                        orders: seq<AuthorityMessage>)
    requires Introducing(was, peers, Sorted(was.Keys), |was.Keys|, newPeer, orders)
    ensures AllTicketed(was) && orders == Introductions(was, Sorted(was.Keys))
    ensures peers == DialOrdered(was, Sorted(was.Keys), newPeer)
  {
    EverybodyIntroduced(was, orders);
    assert Sorted(was.Keys)[..|was.Keys|] == Sorted(was.Keys);
  }

  lemma OverwrittenTwice<V>(m: map<MemberId, V>, id: MemberId, first: V, second: V)
    ensures m[id := first][id := second] == m[id := second]
  {
  }

  /** Inserting the newcomer with its introductions and greeting it then is admitting it. */
  lemma GreetedAfterInsertion(was: map<MemberId, PeerHandle>, newPeer: PeerHandle, room: Room)
    requires AllTicketed(was) && newPeer.ticket.Some?
    ensures var id, ids := newPeer.member.id, Sorted(was.Keys);
            var inserted := DialOrdered(was, ids, newPeer)[id := newPeer.(authority := Introductions(was, ids))];
            inserted[id := inserted[id].(authority := inserted[id].authority + GreetingMessages(room, id))]
              == Admitted(was, newPeer, room)
  {
    var id, ids := newPeer.member.id, Sorted(was.Keys);
    var intros := Introductions(was, ids);
    OverwrittenTwice(DialOrdered(was, ids, newPeer), id, newPeer.(authority := intros),
                     newPeer.(authority := intros + GreetingMessages(room, id)));
  }

  /** A connection ends as specified. */
  ghost predicate Joined(specified: Result<Host, LinkError>, after: Host, r: Result<(), LinkError>) {
    match specified
    case Success(h) => r == Success(()) && after == h
    case Failure(error) => r == Failure(error)
  }

  lemma ConnectedCases(h: Host, name: string, fingerprint: Option<string>, ticket: Option<string>)
    ensures var out, r := JoinRoom(h.room, name, fingerprint), Connected(h, name, fingerprint, ticket);
            if out.Refused? then r == Failure(RoomRefused(out.error))
            else if ticket.None? || !AllTicketed(h.peers) then r == Failure(MissingTicket)
            else
              var admitted := Admitted(h.peers, Newcomer(h, name, fingerprint, ticket), out.room);
              r == if Cut(admitted, Announced(out)) then Failure(LinkClosed)
                   else Success(Host(out.room, Delivered(admitted, Announced(out)), h.files))
  {
  }

  class HostSession {
    const room: RoomEngine
    var peers: map<MemberId, PeerHandle>
    var pendingAcceptedFiles: set<ChannelId>
    var pendingReceivedFiles: map<ChannelId, ReceivedFile>

    constructor (room: RoomEngine)
      ensures this.room == room && peers == map[] && Files() == HostFiles({}, map[])
    {
      this.room, peers, pendingAcceptedFiles, pendingReceivedFiles := room, map[], {}, map[];
    }

    ghost function Files(): HostFiles
      reads this
    {
      HostFiles(pendingAcceptedFiles, pendingReceivedFiles)
    }

    ghost function View(): Host
      reads this, room
    {
      Host(room.View(), peers, Files())
    }

    /** Tells the newcomer and everybody already there about each other; the newcomer's own orders are returned. */
    method IntroduceMemberToExistingPeers(newPeer: PeerHandle) returns (r: Result<seq<AuthorityMessage>, LinkError>)
      modifies this`peers
      ensures newPeer.ticket.Some? && AllTicketed(old(peers)) ==>
        && r == Success(Introductions(old(peers), Sorted(old(peers).Keys)))
        && peers == DialOrdered(old(peers), Sorted(old(peers).Keys), newPeer)
      ensures newPeer.ticket.None? || !AllTicketed(old(peers)) ==> r == Failure(MissingTicket)
      ensures newPeer.ticket.None? ==> peers == old(peers)
    {
      if newPeer.ticket.None? {
        return Failure(MissingTicket);
      }
      var ids := Sorted(peers.Keys);
      var orders: seq<AuthorityMessage> := [];
      ghost var was := peers;
      SortedAscends(peers.Keys);
      AscendingDistinct(ids);
      IntroducingStarts(was, newPeer);
      for i := 0 to |ids|
        invariant Introducing(was, peers, ids, i, newPeer, orders)
      {
        IntroducingNext(was, peers, ids, i, newPeer, orders);
        var order := IntroduceTo(newPeer, ids[i]);
        if order.None? {
          return Failure(MissingTicket);
        }
        orders := orders + [order.value];
      }
      IntroducingEnds(was, peers, newPeer, orders);
      r := Success(orders);
    }

    /** One existing peer is told to dial the newcomer; the newcomer's own order is returned. */
    method IntroduceTo(newPeer: PeerHandle, p: MemberId) returns (order: Option<AuthorityMessage>)
      requires newPeer.ticket.Some? && p in peers
      modifies this`peers
      ensures old(peers)[p].ticket.None? ==> order == None && peers == old(peers)
      ensures old(peers)[p].ticket.Some? ==>
        && order == Some(Introduction(old(peers)[p], false))
        && peers == old(peers)[p :=
             old(peers)[p].(authority := old(peers)[p].authority + [Introduction(newPeer, true)])]
    {
      var existing := peers[p];
      if existing.ticket.None? {
        return None;
      }
      order := Some(PeerConnect(existing.member, existing.ticket.value, false));
      var dial := PeerConnect(newPeer.member, newPeer.ticket.value, true);
      peers := peers[p := existing.(authority := existing.authority + [dial])];
    }

    /**
      Every event to its recipient's link, or to what waits for that link, until a link turns out to be broken;
      recipients without a handle get nothing.
    */
    method DeliverRoutedEvents(routed: seq<Routed>) returns (ok: bool)
      modifies this`peers
      ensures ok <==> !Cut(old(peers), routed)
      ensures peers == Delivered(old(peers), Made(old(peers), routed))
    {
      ghost var was := peers;
      NothingDelivered(was);
      for i := 0 to |routed|
        invariant peers == Delivered(was, routed[..i])
        invariant forall j | 0 <= j < i :: !Dead(was, routed[j].recipient)
      {
        DeliveredNext(was, routed, i);
        var next := routed[i];
        if next.recipient in peers {
          var peer := peers[next.recipient];
          if !peer.ready {
            peers := peers[next.recipient := peer.(pending := peer.pending + [next.event])];
          } else if peer.broken {
            assert Reach(was, routed) == i;
            return false;
          } else {
            peers := peers[next.recipient := peer.(sent := peer.sent + [next.event])];
          }
        }
      }
      assert Reach(was, routed) == |routed|;
      ok := true;
    }

    /** What waited is sent first, one by one, and only then is the link used directly. */
    method PeerLinkReady(p: MemberId)
      modifies this`peers
      ensures View() == MadeReady(old(View()), p)
    {
      if p in peers {
        var waiting := peers[p].pending;
        peers := peers[p := peers[p].(pending := [])];
        ghost var was := peers[p];
        assert was == was.(sent := was.sent + waiting[..0]);
        for i := 0 to |waiting|
          invariant p in peers && peers[p] == was.(sent := was.sent + waiting[..i])
          invariant peers.Keys == old(peers).Keys && forall q | q in peers && q != p :: peers[q] == old(peers)[q]
        {
          assert was.sent + waiting[..i + 1] == was.sent + waiting[..i] + [waiting[i]];
          peers := peers[p := peers[p].(sent := peers[p].sent + [waiting[i]])];
        }
        assert waiting[..|waiting|] == waiting;
        peers := peers[p := peers[p].(ready := true, broken := false)];
      }
    }

    /** Delivery outside of a command: when it fails, so does the session. */
    method DeliverOrEnd(routed: seq<Routed>) returns (r: Result<(), LinkError>)
      modifies this`peers
      ensures Cut(old(peers), routed) ==> r == Failure(LinkClosed)
      ensures !Cut(old(peers), routed) ==> r == Success(()) && peers == Delivered(old(peers), routed)
    {
      var delivered := DeliverRoutedEvents(routed);
      assert routed[..|routed|] == routed;
      r := if delivered then Success(()) else Failure(LinkClosed);
    }

    /** Taking a newcomer in and telling the others. */
    method Welcome(newPeer: PeerHandle, greeting: seq<Event>, routed: seq<Routed>) returns (r: Result<(), LinkError>)
      requires greeting == Greeting(room.View(), newPeer.member.id)
      modifies this`peers
      ensures newPeer.ticket.None? || !AllTicketed(old(peers)) ==> r == Failure(MissingTicket)
      ensures newPeer.ticket.Some? && AllTicketed(old(peers)) ==>
        var admitted := Admitted(old(peers), newPeer, room.View());
        if Cut(admitted, routed) then r == Failure(LinkClosed)
        else r == Success(()) && peers == Delivered(admitted, routed)
    {
      r := AdmitPeer(newPeer, greeting);
      if r.Success? {
        r := DeliverOrEnd(routed);
      }
    }

    method PeerConnected(name: string, fingerprint: Option<string>, ticket: Option<string>)
      returns (r: Result<(), LinkError>)
      modifies this`peers, room
      ensures Joined(Connected(old(View()), name, fingerprint, ticket), View(), r)
    {
      ConnectedCases(View(), name, fingerprint, ticket);
      var id := MemberName(room.nextMemberIndex);
      var joined, greeting := room.Join(name, fingerprint);
      if joined.Failure? {
        return Failure(RoomRefused(joined.error));
      }
      r := Welcome(PeerHandle(Member(id, name, fingerprint), ticket, [], false, [], [], false), greeting, joined.value);
    }

    /** Introductions both ways, then the newcomer's handle, then its greeting. */
    method AdmitPeer(newPeer: PeerHandle, greeting: seq<Event>) returns (r: Result<(), LinkError>)
      requires greeting == Greeting(room.View(), newPeer.member.id)
      modifies this`peers
      ensures newPeer.ticket.Some? && AllTicketed(old(peers)) ==>
        r == Success(()) && peers == Admitted(old(peers), newPeer, room.View())
      ensures newPeer.ticket.None? || !AllTicketed(old(peers)) ==> r == Failure(MissingTicket)
    {
      var id := newPeer.member.id;
      var orders := IntroduceMemberToExistingPeers(newPeer);
      if orders.Failure? {
        return Failure(orders.error);
      }
      peers := peers[id := newPeer.(authority := orders.value)];
      peers := peers[id := peers[id].(authority := peers[id].authority + [Told(greeting[0]), Told(greeting[1])])];
      GreetedAfterInsertion(old(peers), newPeer, room.View());
      r := Success(());
    }

    /** A connection breaks: the handle goes first, so the departed peer is not told. */
    method PeerDisconnected(member: MemberId, reason: Option<string>) returns (r: Result<(), LinkError>)
      modifies this`peers, room
      ensures Joined(Leaving(old(View()), member, reason), View(), r)
    {
      ghost var before := View();
      peers := peers - {member};
      ghost var among := peers;
      var left := room.Leave(member, reason);
      if left.Failure? {
        NothingDelivered(peers);
        assert Leaving(before, member, reason) == Success(View());
        return Success(());
      }
      r := DeliverOrEnd(left.value);
      assert Leaving(before, member, reason) ==
             if Cut(among, left.value) then Failure(LinkClosed) else Success(View());
    }

    /** What the host does about one of its own transfers, once the room has answered. */
    method Announce(ghost before: Host, ghost command: Command, routed: Result<seq<Routed>, RoomError>)
      returns (r: Result<(), LinkError>)
      requires Meets(Execute(before.room, before.room.host, command), before.room, room.View(), routed)
      requires peers == before.peers && Files() == before.files
      modifies this`peers
      ensures Joined(Prepared(before, command), View(), r)
    {
      if routed.Failure? {
        return if Overlooked(routed.error) then Success(()) else Failure(RoomRefused(routed.error));
      }
      r := DeliverOrEnd(routed.value);
    }

    /** A transfer of the host's own is ready: its size and offer go to everybody it was offered to. */
    method PreparedTransferReady(channel: ChannelId, size: nat, offer: TransferOffer) returns (r: Result<(), LinkError>)
      modifies this`peers, this`pendingAcceptedFiles, room
      ensures Joined(Prepared(old(View()), PreparedCommand(TransferPrepared(channel, size, offer))), View(), r)
    {
      ghost var before := View();
      ghost var update := PreparedCommand(TransferPrepared(channel, size, offer));
      var routed := room.UpdateChannelTransfer(room.hostMember, channel, Some(size), offer);
      if routed.Success? {
        OwnUpdatesDoNotFault(before.room, update, Providers(peers), Files());
        var effects, fault := MaybeStartHostPendingReceive(channel);
      }
      r := Announce(before, update, routed);
    }

    /** The host could not prepare a transfer of its own, and closes the channel. */
    method PreparedTransferFailed(channel: ChannelId) returns (r: Result<(), LinkError>)
      modifies this`peers, room
      ensures Joined(Prepared(old(View()), PreparedCommand(PreparationFailed(channel))), View(), r)
    {
      ghost var before := View();
      var routed := room.CloseChannel(room.hostMember, channel, Some("sender failed to prepare transfer"));
      r := Announce(before, PreparedCommand(PreparationFailed(channel)), routed);
    }

    /** Where the host can fetch a channel's file from. */
    method HostPendingFileDownload(channel: ChannelId) returns (r: Result<Option<Channel>, ()>)
      ensures r == HostDownload(room.View(), Providers(peers), channel)
    {
      if channel !in room.channels {
        return Failure(());
      }
      var c := room.channels[channel];
      if c.kind != File || c.opener == room.hostMember {
        return Success(None);
      }
      if room.hostMember !in c.participants || c.transfer.None? {
        return Failure(());
      }
      if c.opener !in peers || peers[c.opener].ticket.None? {
        return Failure(());
      }
      r := Success(Some(c));
    }

    method MaybeStartHostPendingReceive(channel: ChannelId) returns (effects: seq<Effect>, fault: bool)
      modifies this`pendingAcceptedFiles
      ensures HostReceipt(Files(), effects, fault) == HostStart(room.View(), Providers(peers), old(Files()), channel)
    {
      effects, fault := [], false;
      if channel !in pendingAcceptedFiles {
        return;
      }
      var download := HostPendingFileDownload(channel);
      if download.Failure? {
        return [ReceiveFault(channel)], true;
      }
      if download.value.None? {
        return;
      }
      var c := download.value.value;
      if PutOff(c.transfer.value, c.size) {
        return;
      }
      if !ReceivableName(ItemName(c.name, channel)) {
        return [ReceiveFault(channel)], true;
      }
      pendingAcceptedFiles := pendingAcceptedFiles - {channel};
      effects := [StartReceive(channel)];
    }

    method MaybeFinalizeHostReceivedFile(channel: ChannelId) returns (effects: seq<Effect>)
      modifies this`pendingAcceptedFiles, this`pendingReceivedFiles
      ensures HostReceipt(Files(), effects, false) == HostFinalize(room.View(), old(Files()), channel)
    {
      effects := [];
      if channel !in room.channels || ExpectedHash(room.channels[channel].transfer).None? {
        return;
      }
      var expected := ExpectedHash(room.channels[channel].transfer).value;
      if channel !in pendingReceivedFiles {
        return;
      }
      var pending := pendingReceivedFiles[channel];
      pendingReceivedFiles := pendingReceivedFiles - {channel};
      if pending.actualHash != expected {
        return [DeleteTemp(channel, pending.tempPath), IntegrityError(channel)];
      }
      pendingAcceptedFiles := pendingAcceptedFiles - {channel};
      effects := [Rename(channel, pending.tempPath, pending.finalPath),
                  AnnouncePath(channel, pending.finalPath, pending.size)];
    }

    /** The room's part of a command. */
    method CarryOut(actor: MemberId, command: Command) returns (r: Result<seq<Routed>, RoomError>)
      modifies room
      ensures Meets(Execute(old(room.View()), actor, command), old(room.View()), room.View(), r)
    {
      match command {
        case SendChat(to, text) => r := room.SendChat(actor, to, text);
        case OpenChannel(channel, kind, to, name, size, mime, transfer) =>
          r := room.OpenChannel(actor, channel, kind, to, name, size, mime, transfer);
        case UpdateChannelTransfer(channel, size, offer) =>
          r := room.UpdateChannelTransfer(actor, channel, size, offer);
        case AcceptChannel(channel) => r := room.AcceptChannel(actor, channel);
        case RejectChannel(channel, reason) => r := room.RejectChannel(actor, channel, reason);
        case SendChannelData(channel, body) => r := room.SendChannelData(actor, channel, body);
        case CloseChannel(channel, reason) => r := room.CloseChannel(actor, channel, reason);
      }
    }

    /** What the host does for itself before anybody is told. */
    method Ready(actor: MemberId, command: Command) returns (effects: seq<Effect>, fault: bool)
      modifies this`pendingAcceptedFiles
      ensures HostReceipt(Files(), effects, fault)
           == Readied(room.View(), Providers(peers), old(Files()), actor, command)
    {
      effects, fault := [], false;
      if command.UpdateChannelTransfer? {
        effects, fault := MaybeStartHostPendingReceive(command.channel);
      } else if command.AcceptChannel? && actor == room.hostMember {
        var download := HostPendingFileDownload(command.channel);
        if download.Failure? {
          return [ReceiveFault(command.channel)], true;
        }
        if download.value.Some? {
          pendingAcceptedFiles := pendingAcceptedFiles + {command.channel};
          effects, fault := MaybeStartHostPendingReceive(command.channel);
        }
      }
    }

    /** A command of the host or a peer. */
    method HandleHostCommand(actor: MemberId, command: Command) returns (ok: bool, effects: seq<Effect>)
      modifies this`peers, this`pendingAcceptedFiles, this`pendingReceivedFiles, room
      ensures ok <==>
        Execute(old(room.View()), actor, command).Applied? && !Loses(old(View()), Commanded(actor, command))
      ensures peers == Delivered(old(peers), HandedOn(old(View()), Commanded(actor, command)))
      ensures View().(peers := if ok then peers else Complained(peers, actor, command))
           == Obeyed(old(View()), actor, command)
      ensures Execute(old(room.View()), actor, command).Applied? ==>
        effects == ServedBy(old(View()), actor, command, Execute(old(room.View()), actor, command)).effects
    {
      ghost var before := View();
      ghost var out := Execute(before.room, actor, command);
      EmittedByCommand(before, actor, command);
      NothingDelivered(peers);
      var routed := CarryOut(actor, command);
      if routed.Failure? {
        NothingHandedOn(before, actor, command);
        return false, [];
      }
      var fault;
      effects, fault := Ready(actor, command);
      if fault {
        NothingHandedOn(before, actor, command);
        return false, effects;
      }
      UnfaultedIsMade(before, actor, command);
      ok := DeliverRoutedEvents(routed.value);
      if ok && command.UpdateChannelTransfer? {
        var finished := MaybeFinalizeHostReceivedFile(command.channel);
        effects := effects + finished;
      }
    }

    /** A peer hears of a failure on its authority link. */
    method Command(actor: MemberId, command: Command)
      modifies this`peers, this`pendingAcceptedFiles, this`pendingReceivedFiles, room
      ensures View() == Obeyed(old(View()), actor, command)
    {
      var ok, effects := HandleHostCommand(actor, command);
      if !ok && actor in peers {
        var complaint := Told(CommandFailed(CommandChannel(command)));
        peers := peers[actor := peers[actor].(authority := peers[actor].authority + [complaint])];
      }
    }

    method ReceivedFileReadyToFinalize(channel: ChannelId, file: ReceivedFile) returns (effects: seq<Effect>)
      modifies this`pendingAcceptedFiles, this`pendingReceivedFiles
      ensures View() == Finished(old(View()), channel, file)
    {
      pendingReceivedFiles := pendingReceivedFiles[channel := file];
      effects := MaybeFinalizeHostReceivedFile(channel);
    }

    method LocalPathReceived(channel: ChannelId)
      modifies this`pendingAcceptedFiles, this`pendingReceivedFiles
      ensures View() == PathKept(old(View()), channel)
    {
      pendingAcceptedFiles := pendingAcceptedFiles - {channel};
      pendingReceivedFiles := pendingReceivedFiles - {channel};
    }
  }

  /**
    A joiner reads one message of its authority link: `closed` says that it reads no more of it, `stopped` that an error
    has ended its session.
  */
  method HandleJoinAuthorityMessage(state: JoinState, m: AuthorityMessage)
    returns (dial: Dial, effects: seq<Effect>, stopped: bool, closed: bool)
    modifies state
    ensures FileFinalisation.Reaction(state.View(), effects, stopped) == Received(old(state.View()), m)
    ensures dial == DialFor(old(state.View()), m)
    ensures closed <==> m.Told? && m.event.RoomClosed?
  {
    dial, effects, stopped, closed := NoDial, [], false, false;
    match m
    case Told(event) =>
      effects, stopped := FileFinalisation.HandleDelivered(state, event);
      closed := event.RoomClosed?;
    case PeerConnect(peer, ticket, wanted) =>
      state.memberTickets := state.memberTickets[peer.id := ticket];
      if wanted && peer.id !in state.peerLinks && state.selfMember.Some? && state.selfMember.value != peer.id {
        if state.selfMember.value !in state.members {
          dial := RoomNotReady;
          return;
        }
        dial := DialPeer(state.members[state.selfMember.value], peer, ticket);
      }
  }
}
