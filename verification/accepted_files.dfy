/**
  From accepting a file to fetching it: what makes a receive start, at the joiner and at the host, and that an accepted
  file whose size is not known yet is fetched as soon as it is.
*/
module AcceptedFiles {
  import opened Wrappers
  import opened RoomProtocol
  import opened RoomAuthority
  import opened Replica
  import opened FileReceive
  import opened FileFinalisation
  import opened Paths

  /** This member takes part in a file channel of somebody it can reach, and does not have the file yet. */
  ghost predicate Offered(v: View, channel: ChannelId) {
    && v.self.Some? && channel in v.channels
    && var c := v.channels[channel];
       && c.kind == File && !c.localFileReady && v.self.value in c.participants
       && c.transfer.Some? && c.opener in v.tickets
       && ReceivableName(if c.name.Some? then c.name.value else channel)
  }

  /** A folder can be fetched at once, a single file when its size is known. */
  ghost predicate SizeSuffices(transfer: TransferOffer, size: Option<nat>) {
    transfer.itemKind == SingleFile ==> size.Some?
  }

  ghost predicate IsUpdateOf(event: Event, channel: ChannelId) {
    (event.ChannelTransferReady? || event.ChannelTransferFinalized?) && event.channel == channel
  }

  lemma StartsExactly(v: View, touched: ChannelId, channel: ChannelId)
    ensures StartReceive(channel) in MaybeStart(v, touched).effects <==>
            && touched == channel && channel in v.pendingAccepted && Offered(v, channel)
            && SizeSuffices(v.channels[channel].transfer.value, v.channels[channel].size)
  {
  }

  lemma NeverByFinalising(v: View, touched: ChannelId, channel: ChannelId)
    ensures StartReceive(channel) !in Finalize(v, touched).effects
  {
  }

  lemma UpdateOffers(v: View, event: Event, channel: ChannelId)
    requires IsUpdateOf(event, channel)
    ensures var applied := ApplyEvent(v, event);
            && applied.pendingAccepted == v.pendingAccepted
            && (Offered(applied, channel) <==> Offered(SetTransfer(v, channel, event.size, event.offer), channel))
            && (channel in v.channels ==>
                  && channel in applied.channels && applied.channels[channel].transfer == Some(event.offer)
                  && applied.channels[channel].size == event.size)
            && (channel !in v.channels ==> channel !in applied.channels)
  {
  }

  /**
    A joiner begins to fetch a file exactly when it accepts one that is offered to it and can be fetched at once, or is
    told about a transfer it has accepted before and can fetch now.
  */
  lemma {:induction false} WhenAJoinerFetches(v: View, input: JoinInput, channel: ChannelId)
    ensures StartReceive(channel) in Handle(v, input).effects <==>
            match input
            case Accept(c) =>
              c == channel && Offered(v, channel)
              && SizeSuffices(v.channels[channel].transfer.value, v.channels[channel].size)
            case Delivered(event) =>
              IsUpdateOf(event, channel) && channel in v.pendingAccepted
              && Offered(SetTransfer(v, channel, event.size, event.offer), channel)
              && SizeSuffices(event.offer, event.size)
            case BytesArrived(_, _) => false
  {
    match input
    case Accept(c) => StartsExactly(v.(pendingAccepted := v.pendingAccepted + {c}), c, channel);
    case Delivered(event) =>
      var applied := ApplyEvent(v, event);
      if event.ChannelTransferReady? || event.ChannelTransferFinalized? {
        StartsExactly(applied, event.channel, channel);
        NeverByFinalising(MaybeStart(applied, event.channel).view, event.channel, channel);
        if event.channel == channel {
          UpdateOffers(v, event, channel);
        }
      }
    case BytesArrived(c, file) =>
      NeverByFinalising(v.(pendingReceived := v.pendingReceived[c := file]), c, channel);
  }

  // ----- accepted before its size is known -----

  /** Accepted, and put off until the size is known. */
  ghost predicate Awaits(v: View, channel: ChannelId, self: MemberId, participants: set<MemberId>) {
    && Steady(v, channel, self, participants) && v.channels[channel].opener in participants
    && channel in v.pendingAccepted && Offered(v, channel)
    && !SizeSuffices(v.channels[channel].transfer.value, v.channels[channel].size)
  }

  /** Nothing about the channel, acceptances apart. */
  ghost predicate Elsewhere(input: JoinInput, channel: ChannelId, participants: set<MemberId>) {
    LeavesAlone(input, channel, participants) && JoinSignal(input, channel) == Other
  }

  lemma ChannelStays(v: View, event: Event, channel: ChannelId, self: MemberId, participants: set<MemberId>)
    requires Steady(v, channel, self, participants) && Elsewhere(Delivered(event), channel, participants)
    ensures var after := ApplyEvent(v, event);
            && after.self == v.self
            && channel in after.channels && after.channels[channel] == v.channels[channel]
  {
    if event.MemberLeft? {
      assert participants - {event.member} == participants;
    }
  }

  lemma {:induction false} AppliedStillAwaits(v: View, event: Event, channel: ChannelId, self: MemberId,
                                              participants: set<MemberId>)
    requires Awaits(v, channel, self, participants) && Elsewhere(Delivered(event), channel, participants)
    ensures Awaits(ApplyEvent(v, event), channel, self, participants)
  {
    ChannelStays(v, event, channel, self, participants);
    WhomAViewRemembers(v, event, v.channels[channel].opener);
    WhichFilesAViewRemembers(v, event, channel);
  }

  lemma StartStillAwaits(v: View, touched: ChannelId, channel: ChannelId, self: MemberId, participants: set<MemberId>)
    requires Awaits(v, channel, self, participants)
    ensures Awaits(MaybeStart(v, touched).view, channel, self, participants)
  {
  }

  lemma FinalizeStillAwaits(v: View, touched: ChannelId, channel: ChannelId, self: MemberId,
                            participants: set<MemberId>)
    requires Awaits(v, channel, self, participants) && touched != channel
    ensures Awaits(Finalize(v, touched).view, channel, self, participants)
  {
    FinalizeElsewhere(v, touched, channel, self, participants);
  }

  lemma {:induction false} StillAwaits(v: View, input: JoinInput, channel: ChannelId, self: MemberId,
                                       participants: set<MemberId>)
    requires Awaits(v, channel, self, participants) && Elsewhere(input, channel, participants)
    ensures var r := Handle(v, input);
            Awaits(r.view, channel, self, participants) && StartReceive(channel) !in r.effects
  {
    WhenAJoinerFetches(v, input, channel);
    match input
    case Delivered(event) =>
      var applied := ApplyEvent(v, event);
      AppliedStillAwaits(v, event, channel, self, participants);
      if event.ChannelTransferReady? || event.ChannelTransferFinalized? {
        StartStillAwaits(applied, event.channel, channel, self, participants);
        FinalizeStillAwaits(MaybeStart(applied, event.channel).view, event.channel, channel, self, participants);
      }
    case Accept(c) =>
      StartStillAwaits(v.(pendingAccepted := v.pendingAccepted + {c}), c, channel, self, participants);
    case BytesArrived(c, file) =>
      FinalizeStillAwaits(v.(pendingReceived := v.pendingReceived[c := file]), c, channel, self, participants);
  }

  lemma {:induction false} AwaitsThroughout(v: View, inputs: seq<JoinInput>, channel: ChannelId, self: MemberId,
                                            participants: set<MemberId>)
    requires Awaits(v, channel, self, participants)
    requires forall i | i in inputs :: Elsewhere(i, channel, participants)
    ensures var r := HandleAll(v, inputs);
            Awaits(r.view, channel, self, participants) && StartReceive(channel) !in r.effects
  {
    if inputs != [] {
      var n := |inputs| - 1;
      AwaitsThroughout(v, inputs[..n], channel, self, participants);
      StillAwaits(HandleAll(v, inputs[..n]).view, inputs[n], channel, self, participants);
    }
  }

  lemma AcceptedAwaits(v: View, channel: ChannelId, self: MemberId, participants: set<MemberId>)
    requires Steady(v, channel, self, participants) && v.channels[channel].opener in participants
    requires Offered(v, channel) && !SizeSuffices(v.channels[channel].transfer.value, v.channels[channel].size)
    ensures var r := Handle(v, Accept(channel));
            Awaits(r.view, channel, self, participants) && r.effects == [] && !r.stopped
  {
  }

  /**
    A joiner accepts a file whose size is not known. Whatever happens elsewhere it is not fetched before its size is
    announced, and then it is, unless the session has ended.
  */
  lemma {:induction false} AcceptedIsFetched(v: View, channel: ChannelId, self: MemberId, participants: set<MemberId>,
                                             inputs: seq<JoinInput>, event: Event)
    requires Steady(v, channel, self, participants) && v.channels[channel].opener in participants
    requires Offered(v, channel) && !SizeSuffices(v.channels[channel].transfer.value, v.channels[channel].size)
    requires forall i | i in inputs :: Elsewhere(i, channel, participants)
    requires IsUpdateOf(event, channel) && SizeSuffices(event.offer, event.size)
    ensures var accepted := Handle(v, Accept(channel));
            var before := HandleAll(accepted.view, inputs);
            && StartReceive(channel) !in accepted.effects + before.effects && !accepted.stopped
            && StartReceive(channel) in Handle(before.view, Delivered(event)).effects
  {
    AcceptedAwaits(v, channel, self, participants);
    var accepted := Handle(v, Accept(channel)).view;
    AwaitsThroughout(accepted, inputs, channel, self, participants);
    WhenAJoinerFetches(HandleAll(accepted, inputs).view, Delivered(event), channel);
  }

  // ----- the host -----

  /** The host takes part in a file channel of somebody it can fetch from. */
  ghost predicate HostOffered(room: Room, providers: set<MemberId>, channel: ChannelId) {
    && channel in room.channels
    && var c := room.channels[channel];
       && c.kind == File && c.opener != room.host && room.host in c.participants
       && c.transfer.Some? && c.opener in providers
       && ReceivableName(if c.name.Some? then c.name.value else channel)
  }

  ghost predicate HostCanFetch(room: Room, providers: set<MemberId>, channel: ChannelId) {
    HostOffered(room, providers, channel)
    && SizeSuffices(room.channels[channel].transfer.value, room.channels[channel].size)
  }

  /**
    The host begins to fetch a file exactly when it has accepted it, now or before, and the command at hand leaves it
    with one that it can fetch.
  */
  lemma {:induction false} WhenTheHostFetches(room: Room, providers: set<MemberId>, files: HostFiles, actor: MemberId,
                                              command: Command, cut: bool, channel: ChannelId)
    ensures StartReceive(channel) in Served(room, providers, files, actor, command, cut).effects <==>
            && HostCanFetch(room, providers, channel)
            && (command.AcceptChannel? || command.UpdateChannelTransfer?) && command.channel == channel
            && (if command.AcceptChannel? then actor == room.host else channel in files.accepted)
  {
    var readied := Readied(room, providers, files, actor, command);
    assert command.UpdateChannelTransfer? ==>
             StartReceive(channel) !in HostFinalize(room, readied.files, command.channel).effects;
  }

  /** Accepted, and put off until the size is known. The opener is there, so its ticket can be. */
  ghost predicate HostAwaits(h: HostSide, channel: ChannelId, participants: set<MemberId>) {
    && HostSteady(h, channel, participants) && channel in h.files.accepted
    && HostOffered(h.room, participants, channel) && !HostCanFetch(h.room, participants, channel)
  }

  ghost predicate HostElsewhere(input: HostInput, channel: ChannelId, participants: set<MemberId>) {
    && HostLeavesAlone(input, channel, participants)
    && (match input
        case Performed(Issue(_, command), _, _) => command.UpdateChannelTransfer? ==> command.channel != channel
        case HostBytesArrived(c, _) => c != channel
        case _ => true)
  }

  lemma ChannelUntouched(room: Room, op: Op, providers: set<MemberId>, cut: bool, channel: ChannelId,
                         participants: set<MemberId>)
    requires channel in room.channels && room.channels[channel].participants == participants && |participants| >= 2
    requires HostLeavesAlone(Performed(op, providers, cut), channel, participants)
    requires op.Issue? && op.command.UpdateChannelTransfer? ==> op.command.channel != channel
    requires Apply(room, op).Applied?
    ensures var room' := Apply(room, op).room;
            room'.host == room.host && channel in room'.channels && room'.channels[channel] == room.channels[channel]
  {
    if op.Leave? {
      assert participants - {op.member} == participants;
    }
  }

  lemma ReadiedKeepsAccepted(room: Room, providers: set<MemberId>, files: HostFiles, actor: MemberId,
                             command: Command, channel: ChannelId)
    requires channel in files.accepted && channel in room.channels && room.channels[channel].transfer.Some?
    requires !SizeSuffices(room.channels[channel].transfer.value, room.channels[channel].size)
    ensures channel in Readied(room, providers, files, actor, command).files.accepted
  {
  }

  lemma {:induction false} ServedStillAwaits(h: HostSide, providers: set<MemberId>, actor: MemberId, command: Command,
                                             cut: bool, channel: ChannelId, participants: set<MemberId>)
    requires HostAwaits(h, channel, participants)
    requires command.UpdateChannelTransfer? ==> command.channel != channel
    ensures var r := Served(h.room, providers, h.files, actor, command, cut);
            HostAwaits(h.(files := r.files), channel, participants) && StartReceive(channel) !in r.effects
  {
    ReadiedKeepsAccepted(h.room, providers, h.files, actor, command, channel);
    WhenTheHostFetches(h.room, providers, h.files, actor, command, cut, channel);
  }

  lemma {:induction false} HostStillAwaits(h: HostSide, input: HostInput, channel: ChannelId,
                                           participants: set<MemberId>)
    requires HostAwaits(h, channel, participants) && HostElsewhere(input, channel, participants)
    ensures var r := HostHandle(h, input);
            HostAwaits(r.host, channel, participants) && StartReceive(channel) !in r.effects
  {
    match input
    case Performed(op, providers, cut) =>
      var out := Apply(h.room, op);
      if out.Applied? {
        ChannelUntouched(h.room, op, providers, cut, channel, participants);
        if op.Issue? {
          ServedStillAwaits(h.(room := out.room), providers, op.actor, op.command, cut, channel, participants);
        }
      }
    case HostBytesArrived(c, file) =>
  }

  lemma {:induction false} HostAwaitsThroughout(h: HostSide, inputs: seq<HostInput>, channel: ChannelId,
                                                participants: set<MemberId>)
    requires HostAwaits(h, channel, participants)
    requires forall i | i in inputs :: HostElsewhere(i, channel, participants)
    ensures var r := HostHandleAll(h, inputs);
            HostAwaits(r.host, channel, participants) && StartReceive(channel) !in r.effects
  {
    if inputs != [] {
      var n := |inputs| - 1;
      HostAwaitsThroughout(h, inputs[..n], channel, participants);
      HostStillAwaits(HostHandleAll(h, inputs[..n]).host, inputs[n], channel, participants);
    }
  }

  lemma {:induction false} UpdateIsFetched(h: HostSide, actor: MemberId, update: Command, providers: set<MemberId>,
                                           cut: bool, channel: ChannelId, participants: set<MemberId>)
    requires HostAwaits(h, channel, participants) && h.room.channels[channel].opener in providers
    requires update.UpdateChannelTransfer? && update.channel == channel && SizeSuffices(update.offer, update.size)
    requires Execute(h.room, actor, update).Applied?
    ensures StartReceive(channel) in HostHandle(h, Performed(Issue(actor, update), providers, cut)).effects
  {
    var after := Execute(h.room, actor, update).room;
    WhenTheHostFetches(after, providers, h.files, actor, update, cut, channel);
  }

  /** The same for the host: what it has accepted is fetched when its opener says how large it is, and not before. */
  lemma {:induction false} HostAcceptedIsFetched(h: HostSide, channel: ChannelId, participants: set<MemberId>,
                                                 inputs: seq<HostInput>, actor: MemberId, update: Command,
                                                 providers: set<MemberId>, cut: bool)
    requires HostAwaits(h, channel, participants)
    requires forall i | i in inputs :: HostElsewhere(i, channel, participants)
    requires var room := HostHandleAll(h, inputs).host.room;
             && Execute(room, actor, update).Applied?
             && channel in room.channels && room.channels[channel].opener in providers
    requires update.UpdateChannelTransfer? && update.channel == channel && SizeSuffices(update.offer, update.size)
    ensures var before := HostHandleAll(h, inputs);
            && StartReceive(channel) !in before.effects
            && StartReceive(channel)
                 in HostHandle(before.host, Performed(Issue(actor, update), providers, cut)).effects
  {
    HostAwaitsThroughout(h, inputs, channel, participants);
    UpdateIsFetched(HostHandleAll(h, inputs).host, actor, update, providers, cut, channel, participants);
  }

  /** What brings the host there: it accepts a file whose size is not known. */
  lemma {:induction false} HostAcceptanceAwaits(h: HostSide, channel: ChannelId, participants: set<MemberId>,
                                                providers: set<MemberId>, cut: bool)
    requires HostSteady(h, channel, participants) && HostOffered(h.room, participants * providers, channel)
    requires !HostCanFetch(h.room, participants, channel)
    requires Execute(h.room, h.room.host, Command.AcceptChannel(channel)).Applied?
    ensures var r := HostHandle(h, Performed(Issue(h.room.host, Command.AcceptChannel(channel)), providers, cut));
            HostAwaits(r.host, channel, participants) && r.effects == []
  {
    var accept := Command.AcceptChannel(channel);
    ChannelUntouched(h.room, Issue(h.room.host, accept), providers, cut, channel, participants);
  }

  // ----- at most once for each acceptance of the host's -----

  function HostAcceptances(host: MemberId, inputs: seq<HostInput>, channel: ChannelId): nat {
    if inputs == [] then 0
    else
      var last := inputs[|inputs| - 1];
      HostAcceptances(host, inputs[..|inputs| - 1], channel) +
        if last.Performed? && last.op == Issue(host, Command.AcceptChannel(channel)) then 1 else 0
  }

  function HostOutstanding(files: HostFiles, channel: ChannelId): nat {
    if channel in files.accepted then 1 else 0
  }

  lemma {:induction false} ReadiedSpendsAcceptance(room: Room, providers: set<MemberId>, files: HostFiles,
                                                   actor: MemberId, command: Command, channel: ChannelId)
    ensures var r := Readied(room, providers, files, actor, command);
            Starts(r.effects, channel) + HostOutstanding(r.files, channel)
              <= HostOutstanding(files, channel) +
                 if actor == room.host && command == Command.AcceptChannel(channel) then 1 else 0
  {
  }

  lemma {:induction false} HostFinalizeStartsNothing(room: Room, files: HostFiles, touched: ChannelId,
                                                     channel: ChannelId)
    ensures var r := HostFinalize(room, files, touched);
            Starts(r.effects, channel) == 0 && HostOutstanding(r.files, channel) <= HostOutstanding(files, channel)
  {
    var r := HostFinalize(room, files, touched);
    if r.effects != [] {
      assert r.effects == [r.effects[0]] + [r.effects[1]];
      StartsConcat([r.effects[0]], [r.effects[1]], channel);
    }
  }

  lemma {:induction false} ServedSpendsAcceptance(room: Room, providers: set<MemberId>, files: HostFiles,
                                                  actor: MemberId, command: Command, cut: bool, channel: ChannelId)
    ensures var r := Served(room, providers, files, actor, command, cut);
            Starts(r.effects, channel) + HostOutstanding(r.files, channel)
              <= HostOutstanding(files, channel) +
                 if actor == room.host && command == Command.AcceptChannel(channel) then 1 else 0
  {
    var readied := Readied(room, providers, files, actor, command);
    ReadiedSpendsAcceptance(room, providers, files, actor, command, channel);
    if !readied.fault && !cut && command.UpdateChannelTransfer? {
      HostFinalizeStartsNothing(room, readied.files, command.channel, channel);
      StartsConcat(readied.effects, HostFinalize(room, readied.files, command.channel).effects, channel);
    }
  }

  lemma HostStays(room: Room, op: Op)
    requires Apply(room, op).Applied?
    ensures Apply(room, op).room.host == room.host
  {
  }

  lemma {:induction false} HostHandleStarts(h: HostSide, input: HostInput, channel: ChannelId)
    ensures var r := HostHandle(h, input);
            && r.host.room.host == h.room.host
            && Starts(r.effects, channel) + HostOutstanding(r.host.files, channel)
                 <= HostOutstanding(h.files, channel) +
                    if input.Performed? && input.op == Issue(h.room.host, Command.AcceptChannel(channel)) then 1 else 0
  {
    match input
    case Performed(op, providers, cut) =>
      var out := Apply(h.room, op);
      if out.Applied? {
        HostStays(h.room, op);
        if op.Issue? {
          ServedSpendsAcceptance(out.room, providers, h.files, op.actor, op.command, cut, channel);
        }
      }
    case HostBytesArrived(c, file) =>
      HostFinalizeStartsNothing(h.room, h.files.(received := h.files.received[c := file]), c, channel);
  }

  /** The host, too, starts no more receives of a channel than it has accepted. */
  lemma {:induction false} HostStartsAreAccepted(h: HostSide, inputs: seq<HostInput>, channel: ChannelId)
    ensures var r := HostHandleAll(h, inputs);
            && r.host.room.host == h.room.host
            && Starts(r.effects, channel) + HostOutstanding(r.host.files, channel)
                 <= HostOutstanding(h.files, channel) + HostAcceptances(h.room.host, inputs, channel)
  {
    if inputs != [] {
      var n := |inputs| - 1;
      var before := HostHandleAll(h, inputs[..n]);
      HostStartsAreAccepted(h, inputs[..n], channel);
      HostHandleStarts(before.host, inputs[n], channel);
      StartsConcat(before.effects, HostHandle(before.host, inputs[n]).effects, channel);
    }
  }
}
