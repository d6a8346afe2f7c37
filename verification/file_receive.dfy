/**
  Receiving files: what is done with one that has arrived, and what the host does for itself about an accepted transfer
  between carrying out a command and telling the other members.
*/
module FileReceive {
  import opened Wrappers
  import opened RoomProtocol
  import opened RoomAuthority
  import opened Paths
  import Replica

  type ReceivedFile = Replica.ReceivedFile

  datatype Effect =
    | Rename(on: ChannelId, tempPath: string, finalPath: string)
    | AnnouncePath(on: ChannelId, finalPath: string, size: nat)
    | DeleteTemp(on: ChannelId, tempPath: string)
    | IntegrityError(on: ChannelId)
    | StartReceive(on: ChannelId)
    | ReceiveFault(on: ChannelId)

  /** What is done with a received file once its digest is known. */
  function Decision(channel: ChannelId, file: ReceivedFile, expected: string): seq<Effect> {
    if file.actualHash == expected
    then [Rename(channel, file.tempPath, file.finalPath), AnnouncePath(channel, file.finalPath, file.size)]
    else [DeleteTemp(channel, file.tempPath), IntegrityError(channel)]
  }

  function ExpectedHash(transfer: Option<TransferOffer>): Option<string> {
    if transfer.Some? && transfer.value.integrity.Some? then Some(transfer.value.integrity.value.value) else None
  }

  /** The name an item is stored under. */
  function ItemName(name: Option<string>, channel: ChannelId): string {
    if name.Some? then name.value else channel
  }

  /** A single file of unknown size cannot be fetched yet. */
  predicate PutOff(transfer: TransferOffer, size: Option<nat>) {
    transfer.itemKind == SingleFile && size.None?
  }

  // ----- the host -----

  /** The transfers the host has accepted and not yet begun, and the files that wait for their digest. */
  datatype HostFiles = HostFiles(accepted: set<ChannelId>, received: map<ChannelId, ReceivedFile>)

  datatype HostReceipt = HostReceipt(files: HostFiles, effects: seq<Effect>, fault: bool)

  /** What the host may fetch on a channel. `providers` are the members whose ticket it has. */
  function HostDownload(room: Room, providers: set<MemberId>, channel: ChannelId): Result<Option<Channel>, ()> {
    if channel !in room.channels then Failure(())
    else
      var c := room.channels[channel];
      if c.kind != File || c.opener == room.host then Success(None)
      else if room.host !in c.participants || c.transfer.None? || c.opener !in providers then Failure(())
      else Success(Some(c))
  }

  function HostStart(room: Room, providers: set<MemberId>, files: HostFiles, channel: ChannelId): HostReceipt {
    if channel !in files.accepted then HostReceipt(files, [], false)
    else match HostDownload(room, providers, channel)
      case Failure(_) => HostReceipt(files, [ReceiveFault(channel)], true)
      case Success(None) => HostReceipt(files, [], false)
      case Success(Some(c)) =>
        if c.transfer.Some? && PutOff(c.transfer.value, c.size) then HostReceipt(files, [], false)
        else if !ReceivableName(ItemName(c.name, channel)) then HostReceipt(files, [ReceiveFault(channel)], true)
        else HostReceipt(files.(accepted := files.accepted - {channel}), [StartReceive(channel)], false)
  }

  function HostAccept(room: Room, providers: set<MemberId>, files: HostFiles, channel: ChannelId): HostReceipt {
    match HostDownload(room, providers, channel)
    case Failure(_) => HostReceipt(files, [ReceiveFault(channel)], true)
    case Success(None) => HostReceipt(files, [], false)
    case Success(Some(_)) =>
      HostStart(room, providers, files.(accepted := files.accepted + {channel}), channel)
  }

  /** Once the file is kept, the channel is done with, also for acceptances. */
  function HostFinalize(room: Room, files: HostFiles, channel: ChannelId): HostReceipt {
    var expected := if channel in room.channels then ExpectedHash(room.channels[channel].transfer) else None;
    if expected.None? || channel !in files.received then HostReceipt(files, [], false)
    else
      var file := files.received[channel];
      HostReceipt(
        HostFiles(if file.actualHash == expected.value then files.accepted - {channel} else files.accepted,
                  files.received - {channel}),
        Decision(channel, file, expected.value), false)
  }

  /** After the room has carried out a command and before anybody is told. */
  function Readied(room: Room, providers: set<MemberId>, files: HostFiles, actor: MemberId,
                   command: Command): HostReceipt {
    match command
    case UpdateChannelTransfer(channel, _, _) => HostStart(room, providers, files, channel)
    case AcceptChannel(channel) =>
      if actor == room.host then HostAccept(room, providers, files, channel) else HostReceipt(files, [], false)
    case _ => HostReceipt(files, [], false)
  }

  /**
    All that the host does for itself about a command: nothing more after a fault of its own, and no finalisation when
    telling the others was `cut` short.
  */
  function Served(room: Room, providers: set<MemberId>, files: HostFiles, actor: MemberId, command: Command,
                  cut: bool): HostReceipt
  {
    var readied := Readied(room, providers, files, actor, command);
    if readied.fault || cut || !command.UpdateChannelTransfer? then readied
    else
      var finished := HostFinalize(room, readied.files, command.channel);
      HostReceipt(finished.files, readied.effects + finished.effects, false)
  }

  // ----- when it faults -----

  /** The host does not take part, does not know where to fetch from, or cannot store an item of that name. */
  predicate BadDownload(room: Room, providers: set<MemberId>, channel: ChannelId)
    requires channel in room.channels
  {
    var c := room.channels[channel];
    c.kind == File && c.opener != room.host &&
      (|| room.host !in c.participants || c.opener !in providers
       || (c.transfer.Some? && !PutOff(c.transfer.value, c.size) && !ReceivableName(ItemName(c.name, channel))))
  }

  /** A command that the room carries out and whose announcement is then lost. */
  predicate Faults(room: Room, providers: set<MemberId>, files: HostFiles, actor: MemberId, command: Command) {
    match command
    case UpdateChannelTransfer(channel, _, _) =>
      channel in files.accepted && channel in room.channels && BadDownload(room, providers, channel)
    case AcceptChannel(channel) =>
      actor == room.host && channel in room.channels && BadDownload(room, providers, channel)
    case _ => false
  }

  lemma UpdateLeavesChannel(room: Room, actor: MemberId, command: Command)
    requires Execute(room, actor, command).Applied? && (command.UpdateChannelTransfer? || command.AcceptChannel?)
    ensures command.channel in Execute(room, actor, command).room.channels
  {
  }

  lemma WhenDownloadIsBad(room: Room, providers: set<MemberId>, files: HostFiles, channel: ChannelId)
    requires Good(room) && channel in room.channels
    ensures HostStart(room, providers, files, channel).fault <==>
              channel in files.accepted && BadDownload(room, providers, channel)
    ensures HostAccept(room, providers, files, channel).fault <==> BadDownload(room, providers, channel)
  {
    assert GoodChannel(room.members.Keys, room.channels[channel]);
  }

  lemma {:induction false} WhenServedFaults(room: Room, actor: MemberId, command: Command, providers: set<MemberId>,
                                            files: HostFiles, cut: bool)
    requires Good(room)
    requires command.UpdateChannelTransfer? || command.AcceptChannel? ==> command.channel in room.channels
    ensures Served(room, providers, files, actor, command, cut).fault <==>
            Faults(room, providers, files, actor, command)
  {
    if command.UpdateChannelTransfer? || command.AcceptChannel? {
      WhenDownloadIsBad(room, providers, files, command.channel);
    }
  }

  /** Serving an accepted command faults exactly when its transfer cannot be fetched. */
  lemma {:induction false} WhenServingFaults(room: Room, actor: MemberId, command: Command, providers: set<MemberId>,
                                             files: HostFiles, cut: bool)
    requires Good(room) && Execute(room, actor, command).Applied?
    ensures var after := Execute(room, actor, command).room;
            Served(after, providers, files, actor, command, cut).fault <==>
            Faults(after, providers, files, actor, command)
  {
    if command.UpdateChannelTransfer? || command.AcceptChannel? {
      UpdateLeavesChannel(room, actor, command);
    }
    ApplyGood(room, Issue(actor, command));
    WhenServedFaults(Execute(room, actor, command).room, actor, command, providers, files, cut);
  }

  /** For a transfer of its own the host fetches nothing, so serving an update of it never faults. */
  lemma OwnUpdatesDoNotFault(room: Room, command: Command, providers: set<MemberId>, files: HostFiles)
    requires command.UpdateChannelTransfer? && Execute(room, room.host, command).Applied?
    ensures HostStart(Execute(room, room.host, command).room, providers, files, command.channel)
         == HostReceipt(files, [], false)
  {
  }
}
