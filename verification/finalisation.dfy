/**
  Finishing a received file. The bytes and the sender's digest arrive independently; whichever comes second decides,
  once, whether the file is kept. Joiner and host share the decision, which `Cell` isolates for a single channel.
*/
module FileFinalisation {
  import opened Wrappers
  import opened RoomProtocol
  import opened RoomAuthority
  import opened Replica
  import opened JoinStateObject
  import opened FileReceive
  import opened Paths

  // ----- the joiner -----

  /** `stopped`: an error has ended the joiner's session. */
  datatype Reaction = Reaction(view: View, effects: seq<Effect>, stopped: bool)

  function Finalize(v: View, channel: ChannelId): Reaction {
    var expected := if channel in v.channels then ExpectedHash(v.channels[channel].transfer) else None;
    if expected.None? || channel !in v.pendingReceived then Reaction(v, [], false)
    else
      var file := v.pendingReceived[channel];
      var taken := v.(pendingReceived := v.pendingReceived - {channel});
      Reaction(
        if file.actualHash == expected.value
        then ApplyEvent(taken, ChannelPathReceived(channel, file.finalPath, file.size)) else taken,
        Decision(channel, file, expected.value), false)
  }

  /** The file a joiner may fetch on a channel: none once it has it, an error when it cannot know where from. */
  function PendingTransfer(v: View, self: MemberId, channel: ChannelId): Result<Option<JoinChannel>, ()> {
    if channel !in v.channels then Failure(())
    else
      var c := v.channels[channel];
      if c.kind != File || c.localFileReady then Success(None)
      else if self !in c.participants || c.transfer.None? || c.opener !in v.tickets then Failure(())
      else Success(Some(c))
  }

  function MaybeStart(v: View, channel: ChannelId): Reaction {
    if channel !in v.pendingAccepted || v.self.None? then Reaction(v, [], false)
    else match PendingTransfer(v, v.self.value, channel)
      case Failure(_) => Reaction(v, [ReceiveFault(channel)], true)
      case Success(None) => Reaction(v, [], false)
      case Success(Some(c)) =>
        if c.transfer.Some? && PutOff(c.transfer.value, c.size) then Reaction(v, [], false)
        else if !ReceivableName(ItemName(c.name, channel)) then Reaction(v, [ReceiveFault(channel)], true)
        else Reaction(v.(pendingAccepted := v.pendingAccepted - {channel}), [StartReceive(channel)], false)
  }

  datatype JoinInput =
    | Delivered(event: Event)
    | Accept(channel: ChannelId)
    | BytesArrived(channel: ChannelId, file: ReceivedFile)

  /** A fault while an event is handled ends the session; one in a command of the joiner's own is only reported. */
  function Handle(v: View, input: JoinInput): Reaction {
    match input
    case Delivered(event) =>
      var applied := ApplyEvent(v, event);
      if event.ChannelTransferReady? then MaybeStart(applied, event.channel)
      else if event.ChannelTransferFinalized? then
        var started := MaybeStart(applied, event.channel);
        if started.stopped then started
        else
          var finished := Finalize(started.view, event.channel);
          Reaction(finished.view, started.effects + finished.effects, false)
      else Reaction(applied, [], false)
    case Accept(channel) =>
      if v.self.None? then Reaction(v, [], false)
      else
        (match PendingTransfer(v, v.self.value, channel)
         case Failure(_) => Reaction(v, [ReceiveFault(channel)], false)
         case Success(None) => Reaction(v, [], false)
         case Success(Some(_)) =>
           MaybeStart(v.(pendingAccepted := v.pendingAccepted + {channel}), channel).(stopped := false))
    case BytesArrived(channel, file) =>
      Finalize(v.(pendingReceived := v.pendingReceived[channel := file]), channel)
  }

  /** Two views that differ in nothing but transfers of their own. */
  ghost predicate SeeAlike(a: View, b: View) {
    && a.self == b.self && a.members == b.members && a.tickets == b.tickets
    && a.channels.Keys == b.channels.Keys
    && forall c | c in a.channels :: a.channels[c] == b.channels[c].(localFileReady := a.channels[c].localFileReady)
  }

  lemma StartSeesAlike(v: View, channel: ChannelId)
    ensures SeeAlike(MaybeStart(v, channel).view, v)
  {
  }

  lemma FinalizeSeesAlike(v: View, channel: ChannelId)
    ensures SeeAlike(Finalize(v, channel).view, v)
  {
    assert forall c | c in v.channels ::
      v.channels[c] == v.channels[c].(localFileReady := v.channels[c].localFileReady);
  }

  /** Beyond applying an event, handling it changes neither who the joiner is nor what it knows of others. */
  lemma HandlingFollowsTheEvent(v: View, event: Event)
    ensures SeeAlike(Handle(v, Delivered(event)).view, ApplyEvent(v, event))
  {
    var applied := ApplyEvent(v, event);
    if event.ChannelTransferReady? || event.ChannelTransferFinalized? {
      var started := MaybeStart(applied, event.channel);
      StartSeesAlike(applied, event.channel);
      FinalizeSeesAlike(started.view, event.channel);
    } else {
      StartSeesAlike(applied.(pendingAccepted := {}), "");
    }
  }

  /** After the session has ended nothing is handled any more. */
  function HandleAll(v: View, inputs: seq<JoinInput>): Reaction {
    if inputs == [] then Reaction(v, [], false)
    else
      var before := HandleAll(v, inputs[..|inputs| - 1]);
      if before.stopped then before
      else
        var last := Handle(before.view, inputs[|inputs| - 1]);
        Reaction(last.view, before.effects + last.effects, last.stopped)
  }

  /** The inputs that are handled in full: those before the one that ends the session. */
  function Heard(v: View, inputs: seq<JoinInput>): seq<JoinInput> {
    if inputs == [] then []
    else if HandleAll(v, inputs).stopped then Heard(v, inputs[..|inputs| - 1])
    else inputs
  }

  // ----- the joiner's handlers as they update its state -----

  method MaybeFinalizeReceivedFile(state: JoinState, channel: ChannelId) returns (effects: seq<Effect>)
    modifies state
    ensures Reaction(state.View(), effects, false) == Finalize(old(state.View()), channel)
  {
    effects := [];
    if channel !in state.channels || ExpectedHash(state.channels[channel].transfer).None? {
      return;
    }
    var expected := ExpectedHash(state.channels[channel].transfer).value;
    if channel !in state.pendingReceivedFiles {
      return;
    }
    var pending := state.pendingReceivedFiles[channel];
    state.pendingReceivedFiles := state.pendingReceivedFiles - {channel};
    if pending.actualHash != expected {
      return [DeleteTemp(channel, pending.tempPath), IntegrityError(channel)];
    }
    effects := [Rename(channel, pending.tempPath, pending.finalPath)];
    state.ApplyMachineEvent(ChannelPathReceived(channel, pending.finalPath, pending.size));
    effects := effects + [AnnouncePath(channel, pending.finalPath, pending.size)];
  }

  method JoinPendingFileTransfer(state: JoinState, self: MemberId, channel: ChannelId)
    returns (r: Result<Option<JoinChannel>, ()>)
    ensures r == PendingTransfer(state.View(), self, channel)
  {
    if channel !in state.channels {
      return Failure(());
    }
    var c := state.channels[channel];
    if c.kind != File || c.localFileReady {
      return Success(None);
    }
    if self !in c.participants || c.transfer.None? || c.opener !in state.memberTickets {
      return Failure(());
    }
    r := Success(Some(c));
  }

  method MaybeStartPendingReceive(state: JoinState, channel: ChannelId) returns (effects: seq<Effect>, fault: bool)
    modifies state
    ensures Reaction(state.View(), effects, fault) == MaybeStart(old(state.View()), channel)
  {
    effects, fault := [], false;
    if channel !in state.pendingAcceptedFiles || state.selfMember.None? {
      return;
    }
    var pending := JoinPendingFileTransfer(state, state.selfMember.value, channel);
    if pending.Failure? {
      return [ReceiveFault(channel)], true;
    }
    if pending.value.None? {
      return;
    }
    var c := pending.value.value;
    if PutOff(c.transfer.value, c.size) {
      return;
    }
    if !ReceivableName(ItemName(c.name, channel)) {
      return [ReceiveFault(channel)], true;
    }
    state.pendingAcceptedFiles := state.pendingAcceptedFiles - {channel};
    effects := [StartReceive(channel)];
  }

  method HandleDelivered(state: JoinState, event: Event) returns (effects: seq<Effect>, stopped: bool)
    modifies state
    ensures Reaction(state.View(), effects, stopped) == Handle(old(state.View()), Delivered(event))
  {
    state.ApplyMachineEvent(event);
    effects, stopped := [], false;
    if event.ChannelTransferReady? || event.ChannelTransferFinalized? {
      effects, stopped := MaybeStartPendingReceive(state, event.channel);
      if stopped {
        return;
      }
    }
    if event.ChannelTransferFinalized? {
      var finished := MaybeFinalizeReceivedFile(state, event.channel);
      effects := effects + finished;
    }
  }

  /** The joiner's own acceptance, once it has been sent to the host. */
  method HandleAcceptance(state: JoinState, channel: ChannelId) returns (effects: seq<Effect>)
    modifies state
    ensures Reaction(state.View(), effects, false) == Handle(old(state.View()), Accept(channel))
  {
    effects := [];
    if state.selfMember.None? {
      return;
    }
    var pending := JoinPendingFileTransfer(state, state.selfMember.value, channel);
    if pending.Failure? {
      return [ReceiveFault(channel)];
    }
    if pending.value.Some? {
      state.pendingAcceptedFiles := state.pendingAcceptedFiles + {channel};
      var fault;
      effects, fault := MaybeStartPendingReceive(state, channel);
    }
  }

  method HandleBytesArrived(state: JoinState, channel: ChannelId, file: ReceivedFile) returns (effects: seq<Effect>)
    modifies state
    ensures Reaction(state.View(), effects, false) == Handle(old(state.View()), BytesArrived(channel, file))
  {
    state.pendingReceivedFiles := state.pendingReceivedFiles[channel := file];
    effects := MaybeFinalizeReceivedFile(state, channel);
  }

  // ----- the host -----

  datatype HostSide = HostSide(room: Room, files: HostFiles)

  /**
    An operation is carried out while the host has the tickets of some members; `cut` when telling the others about it
    stops at a broken link.
  */
  datatype HostInput =
    | Performed(op: Op, providers: set<MemberId>, cut: bool)
    | HostBytesArrived(channel: ChannelId, file: ReceivedFile)

  datatype HostReaction = HostReaction(host: HostSide, effects: seq<Effect>)

  function HostHandle(h: HostSide, input: HostInput): HostReaction {
    match input
    case Performed(op, providers, cut) =>
      var out := Apply(h.room, op);
      if out.Refused? then HostReaction(h, [])
      else if op.Issue? then
        var receipt := Served(out.room, providers, h.files, op.actor, op.command, cut);
        HostReaction(HostSide(out.room, receipt.files), receipt.effects)
      else HostReaction(h.(room := out.room), [])
    case HostBytesArrived(channel, file) =>
      var receipt := HostFinalize(h.room, h.files.(received := h.files.received[channel := file]), channel);
      HostReaction(h.(files := receipt.files), receipt.effects)
  }

  function HostHandleAll(h: HostSide, inputs: seq<HostInput>): HostReaction {
    if inputs == [] then HostReaction(h, [])
    else
      var before := HostHandleAll(h, inputs[..|inputs| - 1]);
      var last := HostHandle(before.host, inputs[|inputs| - 1]);
      HostReaction(last.host, before.effects + last.effects)
  }

  // ----- one channel, seen by itself -----

  /** What finalisation knows about a channel: the announced digest and the file waiting for it. */
  datatype Cell = Cell(expected: Option<string>, waiting: Option<ReceivedFile>)

  /** `Note` records a digest without looking for the file, which is what a fault leaves behind. */
  datatype Signal = Announce(hash: string) | Note(hash: string) | Arrive(file: ReceivedFile) | Other

  datatype CellReaction = CellReaction(cell: Cell, effects: seq<Effect>)

  function Settle(c: Cell, channel: ChannelId): CellReaction {
    if c.expected.Some? && c.waiting.Some?
    then CellReaction(c.(waiting := None), Decision(channel, c.waiting.value, c.expected.value))
    else CellReaction(c, [])
  }

  function Signalled(c: Cell, channel: ChannelId, s: Signal): CellReaction {
    match s
    case Announce(hash) => Settle(c.(expected := Some(hash)), channel)
    case Note(hash) => CellReaction(c.(expected := Some(hash)), [])
    case Arrive(file) => Settle(c.(waiting := Some(file)), channel)
    case Other => CellReaction(c, [])
  }

  function AllSignalled(c: Cell, channel: ChannelId, signals: seq<Signal>): CellReaction {
    if signals == [] then CellReaction(c, [])
    else
      var before := AllSignalled(c, channel, signals[..|signals| - 1]);
      var last := Signalled(before.cell, channel, signals[|signals| - 1]);
      CellReaction(last.cell, before.effects + last.effects)
  }

  /** The cell and what it has done, given whether the digest is known, the bytes have come, and it has decided. */
  ghost predicate Reached(r: CellReaction, channel: ChannelId, file: ReceivedFile, hash: string,
                          known: bool, arrived: bool, decided: bool)
  {
    && r.effects == (if decided then Decision(channel, file, hash) else [])
    && r.cell.expected == (if known then Some(hash) else None)
    && r.cell.waiting == (if arrived && !decided then Some(file) else None)
    && (decided ==> arrived)
  }

  lemma OneMoreSignal(r: CellReaction, channel: ChannelId, file: ReceivedFile, hash: string,
                      known: bool, arrived: bool, decided: bool, last: Signal)
    requires Reached(r, channel, file, hash, known, arrived, decided)
    requires last.Announce? || last.Note? ==> last.hash == hash
    requires last.Arrive? ==> last.file == file && !arrived
    ensures var s := Signalled(r.cell, channel, last);
            Reached(CellReaction(s.cell, r.effects + s.effects), channel, file, hash,
                    known || last.Announce? || last.Note?, arrived || last.Arrive?,
                    decided || (last.Announce? && arrived) || (last.Arrive? && known))
  {
  }

  ghost predicate Known(start: Option<string>, signals: seq<Signal>, hash: string) {
    start.Some? || Announce(hash) in signals || Note(hash) in signals
  }

  /** Something makes the cell look for the file after both digest and bytes are in. */
  ghost predicate Decided(start: Option<string>, signals: seq<Signal>, file: ReceivedFile, hash: string) {
    || (Arrive(file) in signals && (start.Some? || Announce(hash) in signals))
    || (exists i, j :: 0 <= i < j < |signals| && signals[i] == Note(hash) && signals[j] == Arrive(file))
  }

  lemma DecidedNext(start: Option<string>, earlier: seq<Signal>, last: Signal, file: ReceivedFile, hash: string)
    requires last.Arrive? ==> last.file == file && Arrive(file) !in earlier
    requires last.Announce? || last.Note? ==> last.hash == hash
    ensures Decided(start, earlier + [last], file, hash) <==>
              || Decided(start, earlier, file, hash)
              || (last.Announce? && Arrive(file) in earlier)
              || (last.Arrive? && Known(start, earlier, hash))
  {
    var all, n := earlier + [last], |earlier|;
    assert all[n] == last && forall i | 0 <= i < n :: all[i] == earlier[i];
    if last.Arrive? && Note(hash) in earlier {
      var i :| 0 <= i < n && earlier[i] == Note(hash);
      assert all[i] == Note(hash) && all[n] == Arrive(file);
    }
    if exists i, j :: 0 <= i < j < n && earlier[i] == Note(hash) && earlier[j] == Arrive(file) {
      var i, j :| 0 <= i < j < n && earlier[i] == Note(hash) && earlier[j] == Arrive(file);
      assert all[i] == Note(hash) && all[j] == Arrive(file);
    }
    if exists i, j :: 0 <= i < j <= n && all[i] == Note(hash) && all[j] == Arrive(file) {
      var i, j :| 0 <= i < j <= n && all[i] == Note(hash) && all[j] == Arrive(file);
      assert earlier[i] == Note(hash);
    }
  }

  /**
    Confluence. Let the bytes arrive at most once and every digest be the same, one already known included. Nothing
    happens until both are in; then the decision is made, once, and it depends neither on the order nor on repeated
    announcements. Only a digest that is noted after the bytes have come, and never announced, decides nothing.
  */
  lemma {:induction false} OrderDoesNotMatter(channel: ChannelId, start: Option<string>, signals: seq<Signal>,
                                              file: ReceivedFile, hash: string)
    requires start.Some? ==> start.value == hash
    requires forall s | s in signals :: s.Announce? || s.Note? ==> s.hash == hash
    requires forall s | s in signals :: s.Arrive? ==> s.file == file
    requires forall i, j | 0 <= i < j < |signals| :: !(signals[i].Arrive? && signals[j].Arrive?)
    ensures Reached(AllSignalled(Cell(start, None), channel, signals), channel, file, hash,
                    Known(start, signals, hash), Arrive(file) in signals, Decided(start, signals, file, hash))
  {
    if signals != [] {
      var n := |signals| - 1;
      var earlier, last := signals[..n], signals[n];
      OrderDoesNotMatter(channel, start, earlier, file, hash);
      assert signals == earlier + [last];
      assert last.Arrive? ==> Arrive(file) !in earlier;
      OneMoreSignal(AllSignalled(Cell(start, None), channel, earlier), channel, file, hash,
                    Known(start, earlier, hash), Arrive(file) in earlier, Decided(start, earlier, file, hash), last);
      DecidedNext(start, earlier, last, file, hash);
    }
  }

  // ----- the joiner and the host do on a channel what its cell does -----

  predicate IsFileEffect(e: Effect, channel: ChannelId) {
    e.on == channel && !e.StartReceive? && !e.ReceiveFault?
  }

  /** The effects that decide the fate of the file of one channel. */
  function OnFile(effects: seq<Effect>, channel: ChannelId): seq<Effect> {
    if effects == [] then []
    else
      var last := effects[|effects| - 1];
      OnFile(effects[..|effects| - 1], channel) + if IsFileEffect(last, channel) then [last] else []
  }

  lemma {:induction false} OnFileConcat(a: seq<Effect>, b: seq<Effect>, channel: ChannelId)
    ensures OnFile(a + b, channel) == OnFile(a, channel) + OnFile(b, channel)
  {
    if b == [] {
      assert a + b == a;
    } else {
      var n := |b| - 1;
      assert (a + b)[..|a + b| - 1] == a + b[..n];
      OnFileConcat(a, b[..n], channel);
    }
  }

  lemma {:induction false} OnFileAll(effects: seq<Effect>, channel: ChannelId)
    requires forall e | e in effects :: IsFileEffect(e, channel)
    ensures OnFile(effects, channel) == effects
  {
    if effects != [] {
      OnFileAll(effects[..|effects| - 1], channel);
      assert effects[|effects| - 1] in effects;
    }
  }

  lemma {:induction false} OnFileNone(effects: seq<Effect>, channel: ChannelId)
    requires forall e | e in effects :: !IsFileEffect(e, channel)
    ensures OnFile(effects, channel) == []
  {
    if effects != [] {
      OnFileNone(effects[..|effects| - 1], channel);
      assert effects[|effects| - 1] in effects;
    }
  }

  function CellOf(channel: ChannelId, transfer: Option<TransferOffer>, pending: map<ChannelId, ReceivedFile>): Cell {
    Cell(ExpectedHash(transfer), if channel in pending then Some(pending[channel]) else None)
  }

  function JoinCell(v: View, channel: ChannelId): Cell {
    CellOf(channel, if channel in v.channels then v.channels[channel].transfer else None, v.pendingReceived)
  }

  function HostCell(h: HostSide, channel: ChannelId): Cell {
    CellOf(channel, if channel in h.room.channels then h.room.channels[channel].transfer else None, h.files.received)
  }

  /** This member takes part in the channel with somebody else. */
  ghost predicate Steady(v: View, channel: ChannelId, self: MemberId, participants: set<MemberId>) {
    && v.self == Some(self)
    && channel in v.channels && v.channels[channel].participants == participants
    && Kept(Some(self), participants)
  }

  /** No close, rejection, departure, reopening or folder update touches the channel. */
  ghost predicate LeavesAlone(input: JoinInput, channel: ChannelId, participants: set<MemberId>) {
    match input
    case Delivered(event) =>
      (match event
       case RoomWelcome(_, _, _) => false
       case RoomClosed(_) => false
       case MemberLeft(member, _) => member !in participants
       case ChannelOpened(c, _, _, _, _, _, _, _, _) => c != channel
       case ChannelTransferReady(c, _, _) => c != channel
       case ChannelTransferFinalized(c, _, offer) => c == channel ==> offer.integrity.Some?
       case ChannelPathReceived(c, _, _) => c != channel
       case ChannelClosed(c, _, _, _) => c != channel
       case ChannelRejected(c, _, _, _) => c != channel
       case _ => true)
    case _ => true
  }

  function JoinSignal(input: JoinInput, channel: ChannelId): Signal {
    match input
    case Delivered(ChannelTransferFinalized(c, _, offer)) =>
      if c == channel && offer.integrity.Some? then Announce(offer.integrity.value.value) else Other
    case BytesArrived(c, file) => if c == channel then Arrive(file) else Other
    case _ => Other
  }

  function JoinSignals(inputs: seq<JoinInput>, channel: ChannelId): seq<Signal> {
    seq(|inputs|, i requires 0 <= i < |inputs| => JoinSignal(inputs[i], channel))
  }

  lemma FinalizeSettles(v: View, channel: ChannelId, self: MemberId, participants: set<MemberId>)
    requires Steady(v, channel, self, participants)
    ensures var r := Finalize(v, channel);
            && JoinCell(r.view, channel) == Settle(JoinCell(v, channel), channel).cell
            && r.effects == Settle(JoinCell(v, channel), channel).effects
  {
  }

  lemma SettledOnFile(c: Cell, channel: ChannelId)
    ensures OnFile(Settle(c, channel).effects, channel) == Settle(c, channel).effects
  {
    OnFileAll(Settle(c, channel).effects, channel);
  }

  lemma FinalizeKeepsSteady(v: View, touched: ChannelId, channel: ChannelId, self: MemberId,
                            participants: set<MemberId>)
    requires Steady(v, channel, self, participants)
    ensures Steady(Finalize(v, touched).view, channel, self, participants)
  {
  }

  lemma FinalizeElsewhere(v: View, touched: ChannelId, channel: ChannelId, self: MemberId, participants: set<MemberId>)
    requires Steady(v, channel, self, participants) && touched != channel
    ensures var r := Finalize(v, touched);
            && Steady(r.view, channel, self, participants)
            && JoinCell(r.view, channel) == JoinCell(v, channel) && OnFile(r.effects, channel) == []
  {
    OnFileNone(Finalize(v, touched).effects, channel);
  }

  lemma FinalizeOnCell(v: View, touched: ChannelId, channel: ChannelId, self: MemberId, participants: set<MemberId>)
    requires Steady(v, channel, self, participants)
    ensures var r := Finalize(v, touched);
            && Steady(r.view, channel, self, participants)
            && (touched == channel ==>
                  && JoinCell(r.view, channel) == Settle(JoinCell(v, channel), channel).cell
                  && OnFile(r.effects, channel) == Settle(JoinCell(v, channel), channel).effects)
            && (touched != channel ==>
                  JoinCell(r.view, channel) == JoinCell(v, channel) && OnFile(r.effects, channel) == [])
  {
    if touched == channel {
      FinalizeKeepsSteady(v, channel, channel, self, participants);
      FinalizeSettles(v, channel, self, participants);
      SettledOnFile(JoinCell(v, channel), channel);
    } else {
      FinalizeElsewhere(v, touched, channel, self, participants);
    }
  }

  lemma StartOnCell(v: View, touched: ChannelId, channel: ChannelId, self: MemberId, participants: set<MemberId>)
    requires Steady(v, channel, self, participants)
    ensures var r := MaybeStart(v, touched);
            && Steady(r.view, channel, self, participants)
            && JoinCell(r.view, channel) == JoinCell(v, channel)
            && OnFile(r.effects, channel) == []
  {
    OnFileNone(MaybeStart(v, touched).effects, channel);
  }

  lemma AppliedOnCell(v: View, event: Event, channel: ChannelId, self: MemberId, participants: set<MemberId>)
    requires Steady(v, channel, self, participants) && LeavesAlone(Delivered(event), channel, participants)
    ensures var v' := ApplyEvent(v, event);
            && Steady(v', channel, self, participants)
            && JoinCell(v', channel) ==
                 (if event.ChannelTransferFinalized? && event.channel == channel
                  then JoinCell(v, channel).(expected := Some(event.offer.integrity.value.value))
                  else JoinCell(v, channel))
  {
    if event.MemberLeft? {
      assert participants - {event.member} == participants;
    }
  }

  lemma HandleOnCell(v: View, input: JoinInput, channel: ChannelId, self: MemberId, participants: set<MemberId>)
    requires Steady(v, channel, self, participants) && LeavesAlone(input, channel, participants)
    ensures var r := Handle(v, input);
            var s := Signalled(JoinCell(v, channel), channel, JoinSignal(input, channel));
            !r.stopped ==>
              && Steady(r.view, channel, self, participants)
              && JoinCell(r.view, channel) == s.cell
              && OnFile(r.effects, channel) == s.effects
    ensures Handle(v, input).stopped ==> OnFile(Handle(v, input).effects, channel) == []
  {
    match input
    case Delivered(event) =>
      var applied := ApplyEvent(v, event);
      AppliedOnCell(v, event, channel, self, participants);
      if event.ChannelTransferReady? {
        StartOnCell(applied, event.channel, channel, self, participants);
      } else if event.ChannelTransferFinalized? {
        var started := MaybeStart(applied, event.channel);
        StartOnCell(applied, event.channel, channel, self, participants);
        FinalizeOnCell(started.view, event.channel, channel, self, participants);
        OnFileConcat(started.effects, Finalize(started.view, event.channel).effects, channel);
      }
    case Accept(c) =>
      OnFileNone([ReceiveFault(c)], channel);
      StartOnCell(v.(pendingAccepted := v.pendingAccepted + {c}), c, channel, self, participants);
    case BytesArrived(c, file) =>
      FinalizeOnCell(v.(pendingReceived := v.pendingReceived[c := file]), c, channel, self, participants);
  }

  lemma {:induction false} HeardIsPrefix(v: View, inputs: seq<JoinInput>)
    ensures Heard(v, inputs) <= inputs && !HandleAll(v, Heard(v, inputs)).stopped
  {
    if inputs != [] && HandleAll(v, inputs).stopped {
      HeardIsPrefix(v, inputs[..|inputs| - 1]);
    }
  }

  /** What a run has come to, on one channel: in step with the cell that got the signals heard so far. */
  ghost predicate OnCell(v: View, inputs: seq<JoinInput>, channel: ChannelId, self: MemberId,
                         participants: set<MemberId>) {
    var r := HandleAll(v, inputs);
    var s := AllSignalled(JoinCell(v, channel), channel, JoinSignals(Heard(v, inputs), channel));
    && (!r.stopped ==> Steady(r.view, channel, self, participants) && JoinCell(r.view, channel) == s.cell)
    && OnFile(r.effects, channel) == s.effects
  }

  lemma OneMoreInput(v: View, inputs: seq<JoinInput>, channel: ChannelId, self: MemberId, participants: set<MemberId>)
    requires inputs != [] && !HandleAll(v, inputs[..|inputs| - 1]).stopped
    requires OnCell(v, inputs[..|inputs| - 1], channel, self, participants)
    requires LeavesAlone(inputs[|inputs| - 1], channel, participants)
    ensures OnCell(v, inputs, channel, self, participants)
  {
    var n := |inputs| - 1;
    var before := HandleAll(v, inputs[..n]);
    var last := Handle(before.view, inputs[n]);
    HeardNext(v, inputs);
    HandleOnCell(before.view, inputs[n], channel, self, participants);
    OnFileConcat(before.effects, last.effects, channel);
    var signals := JoinSignals(inputs, channel);
    assert signals[..n] == JoinSignals(inputs[..n], channel) && signals[n] == JoinSignal(inputs[n], channel);
    assert Heard(v, inputs[..n]) == inputs[..n];
  }

  lemma {:induction false} HandleAllOnCell(v: View, inputs: seq<JoinInput>, channel: ChannelId, self: MemberId,
                                           participants: set<MemberId>)
    requires Steady(v, channel, self, participants)
    requires forall i | i in inputs :: LeavesAlone(i, channel, participants)
    ensures OnCell(v, inputs, channel, self, participants)
  {
    if inputs != [] {
      var n := |inputs| - 1;
      HandleAllOnCell(v, inputs[..n], channel, self, participants);
      if !HandleAll(v, inputs[..n]).stopped {
        OneMoreInput(v, inputs, channel, self, participants);
      }
    }
  }

  lemma HeardNext(v: View, inputs: seq<JoinInput>)
    requires inputs != [] && !HandleAll(v, inputs[..|inputs| - 1]).stopped
    ensures Heard(v, inputs) == if HandleAll(v, inputs).stopped then inputs[..|inputs| - 1] else inputs
  {
  }

  lemma SignalsAreInputs(inputs: seq<JoinInput>, channel: ChannelId, file: ReceivedFile, hash: string)
    ensures var signals := JoinSignals(inputs, channel);
            && (forall s | s in signals :: !s.Note? && exists i :: i in inputs && JoinSignal(i, channel) == s)
            && (Announce(hash) in signals <==> exists i | i in inputs :: JoinSignal(i, channel) == Announce(hash))
            && (Arrive(file) in signals <==> BytesArrived(channel, file) in inputs)
  {
    var signals := JoinSignals(inputs, channel);
    forall s | s in signals ensures !s.Note? && exists i :: i in inputs && JoinSignal(i, channel) == s {
      var k :| 0 <= k < |signals| && signals[k] == s;
      assert inputs[k] in inputs;
    }
    forall i | i in inputs ensures JoinSignal(i, channel) in signals {
      var k :| 0 <= k < |inputs| && inputs[k] == i;
      assert signals[k] in signals;
    }
    if Arrive(file) in signals {
      var i :| i in inputs && JoinSignal(i, channel) == Arrive(file);
      assert i == BytesArrived(channel, file);
    }
    if BytesArrived(channel, file) in inputs {
      assert JoinSignal(BytesArrived(channel, file), channel) == Arrive(file);
    }
  }

  /** A joiner that has the digest, from the start or by an announcement among some inputs. */
  ghost predicate KnowsDigest(v: View, inputs: seq<JoinInput>, channel: ChannelId, hash: string) {
    JoinCell(v, channel).expected.Some? || exists i | i in inputs :: JoinSignal(i, channel) == Announce(hash)
  }

  /**
    A joiner that takes part in a file channel, has no bytes of it yet, and then gets the bytes at most once and only
    announcements of one digest, amid any other traffic that leaves the channel alone. If and only if it has both before
    a fault on any channel ends its session, and whatever the order, it does one of two things, once: bytes that have
    the digest are put where they belong and announced, and any others are deleted and reported.
  */
  lemma {:induction false} JoinerFinalisesOnce(v: View, inputs: seq<JoinInput>, channel: ChannelId, self: MemberId,
                            participants: set<MemberId>, file: ReceivedFile, hash: string)
    requires Steady(v, channel, self, participants) && JoinCell(v, channel).waiting == None
    requires JoinCell(v, channel).expected in {None, Some(hash)}
    requires forall i | i in inputs :: LeavesAlone(i, channel, participants)
    requires forall i | i in inputs :: JoinSignal(i, channel).Announce? ==> JoinSignal(i, channel).hash == hash
    requires forall i | i in inputs :: JoinSignal(i, channel).Arrive? ==> JoinSignal(i, channel).file == file
    requires forall i, j | 0 <= i < j < |inputs| ::
               !(JoinSignal(inputs[i], channel).Arrive? && JoinSignal(inputs[j], channel).Arrive?)
    ensures var heard := Heard(v, inputs);
            OnFile(HandleAll(v, inputs).effects, channel) ==
              if !KnowsDigest(v, heard, channel, hash) || BytesArrived(channel, file) !in heard then []
              else if file.actualHash == hash then
                [Rename(channel, file.tempPath, file.finalPath), AnnouncePath(channel, file.finalPath, file.size)]
              else [DeleteTemp(channel, file.tempPath), IntegrityError(channel)]
  {
    var heard := Heard(v, inputs);
    var signals := JoinSignals(heard, channel);
    HeardIsPrefix(v, inputs);
    assert heard == inputs[..|heard|];
    assert forall i | i in heard :: i in inputs;
    HandleAllOnCell(v, inputs, channel, self, participants);
    SignalsAreInputs(heard, channel, file, hash);
    assert JoinCell(v, channel) == Cell(JoinCell(v, channel).expected, None);
    OrderDoesNotMatter(channel, JoinCell(v, channel).expected, signals, file, hash);
  }

  // ----- the joiner has a file exactly when it has put it in its place -----

  ghost predicate HasFile(v: View, channel: ChannelId) {
    channel in v.channels && v.channels[channel].localFileReady
  }

  /** A file of this channel has been put where it belongs. */
  ghost predicate Stored(effects: seq<Effect>, channel: ChannelId) {
    exists e :: e in effects && e.Rename? && e.on == channel
  }

  lemma StoredConcat(a: seq<Effect>, b: seq<Effect>, channel: ChannelId)
    ensures Stored(a + b, channel) <==> Stored(a, channel) || Stored(b, channel)
  {
    assert forall e :: e in a + b <==> e in a || e in b;
  }

  lemma {:induction false} StoredOnFile(effects: seq<Effect>, channel: ChannelId)
    ensures Stored(OnFile(effects, channel), channel) <==> Stored(effects, channel)
  {
    if effects != [] {
      var n := |effects| - 1;
      StoredOnFile(effects[..n], channel);
      assert effects == effects[..n] + [effects[n]];
      StoredConcat(effects[..n], [effects[n]], channel);
      StoredConcat(OnFile(effects[..n], channel), if IsFileEffect(effects[n], channel) then [effects[n]] else [],
                   channel);
    }
  }

  lemma AppliedKeepsFile(v: View, event: Event, channel: ChannelId, self: MemberId, participants: set<MemberId>)
    requires Steady(v, channel, self, participants) && LeavesAlone(Delivered(event), channel, participants)
    ensures HasFile(ApplyEvent(v, event), channel) <==> HasFile(v, channel)
  {
    if event.MemberLeft? {
      assert participants - {event.member} == participants;
    }
  }

  lemma FinalizeStores(v: View, touched: ChannelId, channel: ChannelId, self: MemberId, participants: set<MemberId>)
    requires Steady(v, channel, self, participants)
    ensures var r := Finalize(v, touched);
            HasFile(r.view, channel) <==> HasFile(v, channel) || Stored(r.effects, channel)
  {
    var r := Finalize(v, touched);
    if r.effects != [] {
      assert r.effects[0] in r.effects;
    }
  }

  lemma StartStoresNothing(v: View, touched: ChannelId, channel: ChannelId)
    ensures var r := MaybeStart(v, touched);
            (HasFile(r.view, channel) <==> HasFile(v, channel)) && !Stored(r.effects, channel)
  {
  }

  lemma {:induction false} HandleStores(v: View, input: JoinInput, channel: ChannelId, self: MemberId,
                                        participants: set<MemberId>)
    requires Steady(v, channel, self, participants) && LeavesAlone(input, channel, participants)
    ensures var r := Handle(v, input);
            HasFile(r.view, channel) <==> HasFile(v, channel) || Stored(r.effects, channel)
  {
    match input
    case Delivered(event) =>
      var applied := ApplyEvent(v, event);
      AppliedKeepsFile(v, event, channel, self, participants);
      AppliedOnCell(v, event, channel, self, participants);
      if event.ChannelTransferReady? || event.ChannelTransferFinalized? {
        var started := MaybeStart(applied, event.channel);
        StartStoresNothing(applied, event.channel, channel);
        StartOnCell(applied, event.channel, channel, self, participants);
        FinalizeStores(started.view, event.channel, channel, self, participants);
        StoredConcat(started.effects, Finalize(started.view, event.channel).effects, channel);
      }
    case Accept(c) =>
      StartStoresNothing(v.(pendingAccepted := v.pendingAccepted + {c}), c, channel);
    case BytesArrived(c, file) =>
      FinalizeStores(v.(pendingReceived := v.pendingReceived[c := file]), c, channel, self, participants);
  }

  /** Over any run that leaves the channel alone, however it ends: the joiner counts a file as there once it is. */
  lemma {:induction false} ReadyMeansStored(v: View, inputs: seq<JoinInput>, channel: ChannelId, self: MemberId,
                                            participants: set<MemberId>)
    requires Steady(v, channel, self, participants)
    requires forall i | i in inputs :: LeavesAlone(i, channel, participants)
    ensures var r := HandleAll(v, inputs);
            HasFile(r.view, channel) <==> HasFile(v, channel) || Stored(r.effects, channel)
  {
    if inputs != [] {
      var n := |inputs| - 1;
      var before := HandleAll(v, inputs[..n]);
      ReadyMeansStored(v, inputs[..n], channel, self, participants);
      HandleAllOnCell(v, inputs[..n], channel, self, participants);
      if !before.stopped {
        HandleStores(before.view, inputs[n], channel, self, participants);
        StoredConcat(before.effects, Handle(before.view, inputs[n]).effects, channel);
      }
    }
  }

  /** So a joiner whose file arrives has it in the end exactly when the digest was heard and is that of the bytes. */
  lemma {:induction false} OnlyIntactFilesAreReady(v: View, inputs: seq<JoinInput>, channel: ChannelId,
                            self: MemberId, participants: set<MemberId>, file: ReceivedFile, hash: string)
    requires Steady(v, channel, self, participants) && JoinCell(v, channel).waiting == None && !HasFile(v, channel)
    requires JoinCell(v, channel).expected in {None, Some(hash)}
    requires forall i | i in inputs :: LeavesAlone(i, channel, participants)
    requires forall i | i in inputs :: JoinSignal(i, channel).Announce? ==> JoinSignal(i, channel).hash == hash
    requires forall i | i in inputs :: JoinSignal(i, channel).Arrive? ==> JoinSignal(i, channel).file == file
    requires forall i, j | 0 <= i < j < |inputs| ::
               !(JoinSignal(inputs[i], channel).Arrive? && JoinSignal(inputs[j], channel).Arrive?)
    ensures var heard := Heard(v, inputs);
            HasFile(HandleAll(v, inputs).view, channel) <==>
              && KnowsDigest(v, heard, channel, hash) && BytesArrived(channel, file) in heard
              && file.actualHash == hash
  {
    JoinerFinalisesOnce(v, inputs, channel, self, participants, file, hash);
    ReadyMeansStored(v, inputs, channel, self, participants);
    StoredOnFile(HandleAll(v, inputs).effects, channel);
    var done := OnFile(HandleAll(v, inputs).effects, channel);
    if done != [] {
      assert done[0] in done;
    }
  }

  /** What ends a session: an event about a transfer that was accepted and now cannot be fetched. */
  lemma WhenTheSessionEnds(v: View, event: Event)
    ensures Handle(v, Delivered(event)).stopped <==>
            && (event.ChannelTransferReady? || event.ChannelTransferFinalized?)
            && event.channel in v.pendingAccepted && v.self.Some?
            && (event.channel in v.channels ==>
                  var c := v.channels[event.channel];
                  && c.kind == File && !c.localFileReady
                  && (|| v.self.value !in c.participants || c.opener !in v.tickets
                      || (!PutOff(event.offer, event.size) && !ReceivableName(ItemName(c.name, event.channel)))))
  {
  }

  /** What a joiner does of its own accord does not end its session, and neither do bytes that arrive. */
  lemma OnlyEventsEndIt(v: View, input: JoinInput)
    ensures Handle(v, input).stopped ==> input.Delivered?
  {
  }

  lemma HandleAppend(v: View, inputs: seq<JoinInput>, input: JoinInput)
    ensures var before := HandleAll(v, inputs);
            HandleAll(v, inputs + [input]) ==
              if before.stopped then before
              else
                var last := Handle(before.view, input);
                Reaction(last.view, before.effects + last.effects, last.stopped)
  {
    assert (inputs + [input])[..|inputs|] == inputs;
  }

  function FileChannel(name: string): JoinChannel {
    JoinChannel.JoinChannel("m1", File, {"m1", "m2"}, Some(name), Some(1), Some(TransferOffer(SingleFile, None)), false)
  }

  /** The joiner m2 has accepted both files of m1, and is fetching the one it can store. */
  function FetchingOne(received: map<ChannelId, ReceivedFile>): View {
    View.View(Some("m2"), Some("m1"), map[], map["m1" := "ticket"],
              map["c1" := FileChannel("a"), "c2" := FileChannel("..")], {}, {"c2"}, received, None)
  }

  lemma SecondFileFaults(received: map<ChannelId, ReceivedFile>, offer: TransferOffer)
    requires offer.integrity.Some?
    ensures var event := Delivered(ChannelTransferFinalized("c2", Some(1), offer));
            && Handle(FetchingOne(received), event).stopped
            && OnFile(Handle(FetchingOne(received), event).effects, "c1") == []
  {
    var v := FetchingOne(received);
    TwoTakePart(received);
    PlainNameReceivable("..");
    DotsStay();
    WhenTheSessionEnds(v, ChannelTransferFinalized("c2", Some(1), offer));
    HandleOnCell(v, Delivered(ChannelTransferFinalized("c2", Some(1), offer)), "c1", "m2", {"m1", "m2"});
  }

  lemma TwoTakePart(received: map<ChannelId, ReceivedFile>)
    ensures Steady(FetchingOne(received), "c1", "m2", {"m1", "m2"})
    ensures JoinCell(FetchingOne(received), "c1") == Cell(None, if "c1" in received then Some(received["c1"]) else None)
  {
    assert "m1"[1] != "m2"[1] && "c1"[1] != "c2"[1];
    assert |{"m1", "m2"}| == 2;
  }

  /** A run of three, of which the second ends the session. */
  lemma {:induction false} StoppedBySecond(v: View, inputs: seq<JoinInput>, first: Reaction, second: Reaction)
    requires |inputs| == 3 && first == Handle(v, inputs[0]) && second == Handle(first.view, inputs[1])
    requires !first.stopped && second.stopped
    ensures HandleAll(v, inputs).effects == first.effects + second.effects
  {
    HandleAppend(v, [], inputs[0]);
    HandleAppend(v, inputs[..1], inputs[1]);
    HandleAppend(v, inputs[..2], inputs[2]);
    assert [] + [inputs[0]] == inputs[..1] && inputs[..1] + [inputs[1]] == inputs[..2];
    assert inputs[..2] + [inputs[2]] == inputs && [] + first.effects == first.effects;
  }

  lemma FirstFileArrives(file: ReceivedFile)
    ensures Handle(FetchingOne(map[]), BytesArrived("c1", file)) == Reaction(FetchingOne(map["c1" := file]), [], false)
  {
    TwoTakePart(map[]);
    assert FetchingOne(map[]).pendingReceived["c1" := file] == map["c1" := file];
    TwoTakePart(map["c1" := file]);
  }

  /**
    A joiner has accepted a file offered under the name "..", which it cannot store, and has the bytes of another. When
    the digest of the first comes, the session is over, and the digest of the second changes nothing any more.
  */
  lemma FaultLosesAnotherFile(file: ReceivedFile, offer: TransferOffer)
    requires offer.integrity.Some?
    ensures Steady(FetchingOne(map[]), "c1", "m2", {"m1", "m2"})
    ensures JoinCell(FetchingOne(map[]), "c1") == Cell(None, None)
    ensures var inputs := [BytesArrived("c1", file), Delivered(ChannelTransferFinalized("c2", Some(1), offer)),
                           Delivered(ChannelTransferFinalized("c1", Some(1), offer))];
            && (forall i | i in inputs :: LeavesAlone(i, "c1", {"m1", "m2"}))
            && JoinSignal(inputs[0], "c1") == Arrive(file)
            && JoinSignal(inputs[2], "c1") == Announce(offer.integrity.value.value)
            && OnFile(HandleAll(FetchingOne(map[]), inputs).effects, "c1") == []
  {
    var v := FetchingOne(map[]);
    var first := BytesArrived("c1", file);
    var second := Delivered(ChannelTransferFinalized("c2", Some(1), offer));
    var third := Delivered(ChannelTransferFinalized("c1", Some(1), offer));
    TwoTakePart(map[]);
    FirstFileArrives(file);
    SecondFileFaults(map["c1" := file], offer);
    var over := Handle(FetchingOne(map["c1" := file]), second);
    StoppedBySecond(v, [first, second, third], Handle(v, first), over);
    OnFileConcat([], over.effects, "c1");
  }

  // ----- the same for the host -----

  ghost predicate HostSteady(h: HostSide, channel: ChannelId, participants: set<MemberId>) {
    && channel in h.room.channels
    && h.room.channels[channel].participants == participants
    && |participants| >= 2
  }

  ghost predicate HostLeavesAlone(input: HostInput, channel: ChannelId, participants: set<MemberId>) {
    match input
    case Performed(Leave(member, _), _, _) => member !in participants
    case Performed(Issue(_, command), _, _) =>
      (match command
       case UpdateChannelTransfer(c, _, offer) => c == channel ==> offer.integrity.Some?
       case RejectChannel(c, _) => c != channel
       case CloseChannel(c, _) => c != channel
       case _ => true)
    case _ => true
  }

  /** An update that faults or is cut short leaves its digest in the room, but nobody looks for the file. */
  function HostSignal(h: HostSide, input: HostInput, channel: ChannelId): Signal {
    match input
    case Performed(op, providers, cut) =>
      if op.Issue? && op.command.UpdateChannelTransfer? && op.command.channel == channel
         && op.command.offer.integrity.Some? && Apply(h.room, op).Applied?
      then
        var hash := op.command.offer.integrity.value.value;
        if cut || Served(Apply(h.room, op).room, providers, h.files, op.actor, op.command, cut).fault then Note(hash)
        else Announce(hash)
      else Other
    case HostBytesArrived(c, file) => if c == channel then Arrive(file) else Other
  }

  function HostSignals(h: HostSide, inputs: seq<HostInput>, channel: ChannelId): seq<Signal> {
    if inputs == [] then []
    else
      var n := |inputs| - 1;
      HostSignals(h, inputs[..n], channel) + [HostSignal(HostHandleAll(h, inputs[..n]).host, inputs[n], channel)]
  }

  lemma HostFinalizeOnCell(h: HostSide, touched: ChannelId, channel: ChannelId, participants: set<MemberId>)
    requires HostSteady(h, channel, participants)
    ensures var r := HostFinalize(h.room, h.files, touched);
            var after := h.(files := r.files);
            && !r.fault
            && (touched == channel ==>
                  && HostCell(after, channel) == Settle(HostCell(h, channel), channel).cell
                  && OnFile(r.effects, channel) == Settle(HostCell(h, channel), channel).effects)
            && (touched != channel ==>
                  HostCell(after, channel) == HostCell(h, channel) && OnFile(r.effects, channel) == [])
  {
    var r := HostFinalize(h.room, h.files, touched);
    if touched == channel {
      OnFileAll(r.effects, channel);
    } else {
      OnFileNone(r.effects, channel);
    }
  }

  lemma ExecuteElsewhere(room: Room, op: Op, providers: set<MemberId>, cut: bool, channel: ChannelId,
                         participants: set<MemberId>)
    requires channel in room.channels && room.channels[channel].participants == participants && |participants| >= 2
    requires HostLeavesAlone(Performed(op, providers, cut), channel, participants)
    requires Apply(room, op).Applied?
    ensures var room' := Apply(room, op).room;
            && channel in room'.channels && room'.channels[channel].participants == participants
            && room'.channels[channel].transfer ==
                 (if op.Issue? && op.command.UpdateChannelTransfer? && op.command.channel == channel
                  then Some(op.command.offer) else room.channels[channel].transfer)
  {
    if op.Leave? {
      assert participants - {op.member} == participants;
    }
  }

  lemma ReadiedOnCell(room: Room, providers: set<MemberId>, files: HostFiles, actor: MemberId, command: Command,
                      channel: ChannelId)
    ensures var r := Readied(room, providers, files, actor, command);
            r.files.received == files.received && OnFile(r.effects, channel) == []
  {
    OnFileNone(Readied(room, providers, files, actor, command).effects, channel);
  }

  /** Serving a command, seen from the cell of a channel in the room the command has left. */
  lemma ServedOnCell(h: HostSide, providers: set<MemberId>, actor: MemberId, command: Command, cut: bool,
                     channel: ChannelId, participants: set<MemberId>)
    requires HostSteady(h, channel, participants)
    ensures var r := Served(h.room, providers, h.files, actor, command, cut);
            var after := h.(files := r.files);
            if command.UpdateChannelTransfer? && command.channel == channel && !r.fault && !cut
            then
              && HostCell(after, channel) == Settle(HostCell(h, channel), channel).cell
              && OnFile(r.effects, channel) == Settle(HostCell(h, channel), channel).effects
            else HostCell(after, channel) == HostCell(h, channel) && OnFile(r.effects, channel) == []
  {
    var readied := Readied(h.room, providers, h.files, actor, command);
    ReadiedOnCell(h.room, providers, h.files, actor, command, channel);
    if !readied.fault && !cut && command.UpdateChannelTransfer? {
      HostFinalizeOnCell(h.(files := readied.files), command.channel, channel, participants);
      OnFileConcat(readied.effects, HostFinalize(h.room, readied.files, command.channel).effects, channel);
    }
  }

  lemma HostHandleOnCell(h: HostSide, input: HostInput, channel: ChannelId, participants: set<MemberId>)
    requires HostSteady(h, channel, participants) && HostLeavesAlone(input, channel, participants)
    ensures var r := HostHandle(h, input);
            var s := Signalled(HostCell(h, channel), channel, HostSignal(h, input, channel));
            && HostSteady(r.host, channel, participants)
            && HostCell(r.host, channel) == s.cell
            && OnFile(r.effects, channel) == s.effects
  {
    match input
    case Performed(op, providers, cut) =>
      var out := Apply(h.room, op);
      if out.Applied? {
        ExecuteElsewhere(h.room, op, providers, cut, channel, participants);
        if op.Issue? {
          ServedOnCell(h.(room := out.room), providers, op.actor, op.command, cut, channel, participants);
        }
      }
    case HostBytesArrived(c, file) =>
      HostFinalizeOnCell(h.(files := h.files.(received := h.files.received[c := file])), c, channel, participants);
  }

  lemma {:induction false} HostHandleAllOnCell(h: HostSide, inputs: seq<HostInput>, channel: ChannelId,
                                               participants: set<MemberId>)
    requires HostSteady(h, channel, participants)
    requires forall i | i in inputs :: HostLeavesAlone(i, channel, participants)
    ensures var r := HostHandleAll(h, inputs);
            var s := AllSignalled(HostCell(h, channel), channel, HostSignals(h, inputs, channel));
            && HostSteady(r.host, channel, participants)
            && HostCell(r.host, channel) == s.cell
            && OnFile(r.effects, channel) == s.effects
  {
    if inputs != [] {
      var n := |inputs| - 1;
      var before := HostHandleAll(h, inputs[..n]);
      HostHandleAllOnCell(h, inputs[..n], channel, participants);
      HostHandleOnCell(before.host, inputs[n], channel, participants);
      var signals := HostSignals(h, inputs, channel);
      assert signals[..|signals| - 1] == HostSignals(h, inputs[..n], channel);
      OnFileConcat(before.effects, HostHandle(before.host, inputs[n]).effects, channel);
    }
  }

  /**
    The host, too, decides about a file once, and keeps only an intact one. Neither a fault of its own receive nor a
    broken link to somebody who should be told of a command ends its session: the digest then stays in the room without
    the file being looked for, and decides when the bytes come after it.
  */
  lemma {:induction false} HostFinalisesOnce(h: HostSide, inputs: seq<HostInput>, channel: ChannelId,
                                             participants: set<MemberId>,
                          file: ReceivedFile, hash: string)
    requires HostSteady(h, channel, participants) && HostCell(h, channel).waiting == None
    requires HostCell(h, channel).expected in {None, Some(hash)}
    requires forall i | i in inputs :: HostLeavesAlone(i, channel, participants)
    requires forall s | s in HostSignals(h, inputs, channel) :: s.Announce? || s.Note? ==> s.hash == hash
    requires forall s | s in HostSignals(h, inputs, channel) :: s.Arrive? ==> s.file == file
    requires var signals := HostSignals(h, inputs, channel);
             forall i, j | 0 <= i < j < |signals| :: !(signals[i].Arrive? && signals[j].Arrive?)
    ensures OnFile(HostHandleAll(h, inputs).effects, channel) ==
              if !Decided(HostCell(h, channel).expected, HostSignals(h, inputs, channel), file, hash) then []
              else if file.actualHash == hash then
                [Rename(channel, file.tempPath, file.finalPath), AnnouncePath(channel, file.finalPath, file.size)]
              else [DeleteTemp(channel, file.tempPath), IntegrityError(channel)]
  {
    HostHandleAllOnCell(h, inputs, channel, participants);
    assert HostCell(h, channel) == Cell(HostCell(h, channel).expected, None);
    OrderDoesNotMatter(channel, HostCell(h, channel).expected, HostSignals(h, inputs, channel), file, hash);
  }

  /** A channel whose file the host keeps is done with for its acceptance too; otherwise the acceptance stands. */
  lemma KeepingSpendsAcceptance(room: Room, files: HostFiles, channel: ChannelId)
    ensures var r := HostFinalize(room, files, channel);
            r.files.accepted == if Stored(r.effects, channel) then files.accepted - {channel} else files.accepted
  {
    var r := HostFinalize(room, files, channel);
    if r.effects != [] {
      assert r.effects[0] in r.effects;
    }
  }

  // ----- receives are started at most once for each acceptance -----

  function Starts(effects: seq<Effect>, channel: ChannelId): nat {
    if effects == [] then 0
    else Starts(effects[..|effects| - 1], channel) + if effects[|effects| - 1] == StartReceive(channel) then 1 else 0
  }

  function Acceptances(inputs: seq<JoinInput>, channel: ChannelId): nat {
    if inputs == [] then 0
    else Acceptances(inputs[..|inputs| - 1], channel) + if inputs[|inputs| - 1] == Accept(channel) then 1 else 0
  }

  function Outstanding(v: View, channel: ChannelId): nat {
    if channel in v.pendingAccepted then 1 else 0
  }

  lemma {:induction false} StartsConcat(a: seq<Effect>, b: seq<Effect>, channel: ChannelId)
    ensures Starts(a + b, channel) == Starts(a, channel) + Starts(b, channel)
  {
    if b == [] {
      assert a + b == a;
    } else {
      assert (a + b)[..|a + b| - 1] == a + b[..|b| - 1];
      StartsConcat(a, b[..|b| - 1], channel);
    }
  }

  lemma StartSpendsAcceptance(v: View, touched: ChannelId, channel: ChannelId)
    ensures var r := MaybeStart(v, touched);
            Starts(r.effects, channel) + Outstanding(r.view, channel) == Outstanding(v, channel)
  {
  }

  lemma FinalizeStartsNothing(v: View, touched: ChannelId, channel: ChannelId)
    ensures var r := Finalize(v, touched);
            Starts(r.effects, channel) == 0 && Outstanding(r.view, channel) <= Outstanding(v, channel)
  {
    var r := Finalize(v, touched);
    if r.effects != [] {
      assert r.effects == [r.effects[0]] + [r.effects[1]];
      StartsConcat([r.effects[0]], [r.effects[1]], channel);
    }
  }

  lemma {:induction false} HandleStarts(v: View, input: JoinInput, channel: ChannelId)
    ensures var r := Handle(v, input);
            Starts(r.effects, channel) + Outstanding(r.view, channel)
              <= Outstanding(v, channel) + (if input == Accept(channel) then 1 else 0)
  {
    match input
    case Delivered(event) =>
      var applied := ApplyEvent(v, event);
      assert applied.pendingAccepted <= v.pendingAccepted;
      if event.ChannelTransferReady? {
        StartSpendsAcceptance(applied, event.channel, channel);
      } else if event.ChannelTransferFinalized? {
        var started := MaybeStart(applied, event.channel);
        StartSpendsAcceptance(applied, event.channel, channel);
        FinalizeStartsNothing(started.view, event.channel, channel);
        StartsConcat(started.effects, Finalize(started.view, event.channel).effects, channel);
      }
    case Accept(c) =>
      StartSpendsAcceptance(v.(pendingAccepted := v.pendingAccepted + {c}), c, channel);
    case BytesArrived(c, file) =>
      FinalizeStartsNothing(v.(pendingReceived := v.pendingReceived[c := file]), c, channel);
  }

  /** Over any run a channel's file is fetched at most once for each time it was accepted. */
  lemma {:induction false} StartsAreAccepted(v: View, inputs: seq<JoinInput>, channel: ChannelId)
    ensures var r := HandleAll(v, inputs);
            Starts(r.effects, channel) + Outstanding(r.view, channel)
              <= Outstanding(v, channel) + Acceptances(inputs, channel)
  {
    if inputs != [] {
      var n := |inputs| - 1;
      var before := HandleAll(v, inputs[..n]);
      StartsAreAccepted(v, inputs[..n], channel);
      if !before.stopped {
        HandleStarts(before.view, inputs[n], channel);
        StartsConcat(before.effects, Handle(before.view, inputs[n]).effects, channel);
      }
    }
  }
}
