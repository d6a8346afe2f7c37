/**
  One standard input streamed to many receivers, each under its own credit. Receivers come and go while the stream
  runs. A step is one choice of the sending loop, or one turn of some receiver's loop.
*/
module PipeBroadcast {
  import opened Wrappers
  import opened Bytes
  import opened Ordering
  import opened TransferLimits

  const PIPE_CHUNK_BYTES: nat := 64 * 1024

  type ReceiverId = string

  datatype Receiver = Receiver(
    available: nat, active: bool,                // what the sender keeps about it
    written: seq<Byte>, credits: seq<nat>,       // what has been written to it, and its credits in flight
    started: bool, read: nat, pending: nat,      // its own side
    joinedAt: nat)                               // where the input stood when it was added

  datatype Command = AddReceiver(id: ReceiverId) | RemoveReceiver(id: ReceiverId)

  datatype Phase = Running | InputEnded | CommandsEnded

  datatype State = State(input: seq<Byte>, consumed: nat, receivers: map<ReceiverId, Receiver>, phase: Phase)

  datatype Step =
    | Obey(command: Command)
    | CreditArrives(id: ReceiverId)
    | CreditFails(id: ReceiverId)
    | Broadcast(n: nat, failed: set<ReceiverId>)
    | EndOfInput
    | EndOfCommands
    | ReceiverStarts(id: ReceiverId)
    | ReceiverReads(id: ReceiverId, n: nat)

  function NewReceiver(at: nat): Receiver {
    Receiver(0, false, [], [], false, 0, 0, at)
  }

  predicate AllActive(receivers: map<ReceiverId, Receiver>) {
    forall id | id in receivers :: receivers[id].active
  }

  /** The receiver whose first credit is awaited: the first pending one in key order. */
  predicate FirstPending(receivers: map<ReceiverId, Receiver>, id: ReceiverId) {
    && id in receivers && !receivers[id].active
    && forall other | other in receivers && Below(other, id) :: receivers[other].active
  }

  /** With nobody pending, the first receiver in key order that has used up its credit. */
  predicate FirstBlocked(receivers: map<ReceiverId, Receiver>, id: ReceiverId) {
    && id in receivers && receivers[id].active && receivers[id].available == 0
    && forall other | other in receivers && Below(other, id) ::
         !receivers[other].active || receivers[other].available > 0
  }

  predicate AwaitsCredit(receivers: map<ReceiverId, Receiver>, id: ReceiverId) {
    FirstPending(receivers, id) || (AllActive(receivers) && FirstBlocked(receivers, id))
  }

  /** The least credit any receiver has left, at most one chunk. */
  ghost predicate IsChunkLen(receivers: map<ReceiverId, Receiver>, n: nat) {
    && n <= PIPE_CHUNK_BYTES
    && (forall id | id in receivers && receivers[id].active :: n <= receivers[id].available)
    && (n == PIPE_CHUNK_BYTES || exists id :: id in receivers && receivers[id].active && receivers[id].available == n)
  }

  ghost predicate ReadyToRead(s: State) {
    && s.receivers != map[] && AllActive(s.receivers)
    && forall id | id in s.receivers :: s.receivers[id].available > 0
  }

  ghost predicate Enabled(s: State, step: Step) {
    match step
    case Obey(_) => s.phase == Running
    case CreditArrives(id) => s.phase == Running && AwaitsCredit(s.receivers, id) && s.receivers[id].credits != []
    case CreditFails(id) => s.phase == Running && AwaitsCredit(s.receivers, id)
    case Broadcast(n, _) =>
      && s.phase == Running && ReadyToRead(s)
      && (exists most :: IsChunkLen(s.receivers, most) && 0 < n <= most)
      && s.consumed + n <= |s.input|
    case EndOfInput => s.phase == Running && ReadyToRead(s) && s.consumed == |s.input|
    case EndOfCommands => s.phase == Running
    case ReceiverStarts(id) => id in s.receivers && !s.receivers[id].started
    case ReceiverReads(id, n) =>
      && id in s.receivers && s.receivers[id].started
      && s.receivers[id].read <= |s.receivers[id].written|
      && 0 < n <= Min(|s.receivers[id].written| - s.receivers[id].read, TRANSFER_CHUNK_BYTES)
  }

  /** A receiver that reads n more bytes, and grants them once it has a quarter window to grant. */
  function Reads(r: Receiver, n: nat): Receiver {
    var pending := SaturatingAdd(r.pending, n);
    if pending >= TRANSFER_CREDIT_GRANT_BYTES
    then r.(read := r.read + n, credits := r.credits + [pending], pending := 0)
    else r.(read := r.read + n, pending := pending)
  }

  function Starts(r: Receiver): Receiver {
    r.(started := true, credits := r.credits + [TRANSFER_WINDOW_BYTES])
  }

  function Credited(r: Receiver): Receiver
    requires r.credits != []
  {
    r.(available := SaturatingAdd(r.available, r.credits[0]), credits := r.credits[1..], active := true)
  }

  function Sent(r: Receiver, chunk: seq<Byte>): Receiver {
    r.(available := SaturatingSub(r.available, |chunk|), written := r.written + chunk)
  }

  /** One chunk for everybody; those whose stream refuses it are removed. */
  function SentToAll(receivers: map<ReceiverId, Receiver>, chunk: seq<Byte>, failed: set<ReceiverId>)
    : map<ReceiverId, Receiver>
  {
    map id | id in receivers && id !in failed :: Sent(receivers[id], chunk)
  }

  function Obeyed(receivers: map<ReceiverId, Receiver>, command: Command, at: nat): map<ReceiverId, Receiver> {
    match command
    case AddReceiver(id) => receivers[id := NewReceiver(at)]
    case RemoveReceiver(id) => receivers - {id}
  }

  function Do(s: State, step: Step): State
    requires Enabled(s, step)
  {
    match step
    case Obey(command) => s.(receivers := Obeyed(s.receivers, command, s.consumed))
    case CreditArrives(id) => s.(receivers := s.receivers[id := Credited(s.receivers[id])])
    case CreditFails(id) => s.(receivers := s.receivers - {id})
    case Broadcast(n, failed) =>
      var chunk := s.input[s.consumed..s.consumed + n];
      s.(consumed := s.consumed + n,
         receivers := SentToAll(s.receivers, chunk, failed))
    case EndOfInput => s.(phase := InputEnded)
    case EndOfCommands => s.(phase := CommandsEnded)
    case ReceiverStarts(id) => s.(receivers := s.receivers[id := Starts(s.receivers[id])])
    case ReceiverReads(id, n) => s.(receivers := s.receivers[id := Reads(s.receivers[id], n)])
  }

  /** Who is served after a step: whoever is added, and whoever was and is not removed and did not fail. */
  lemma WhoIsServed(s: State, step: Step, id: ReceiverId)
    requires Enabled(s, step)
    ensures id in Do(s, step).receivers <==>
            || step == Obey(AddReceiver(id))
            || (id in s.receivers
                && step != Obey(RemoveReceiver(id)) && step != CreditFails(id)
                && (step.Broadcast? ==> id !in step.failed))
  {
  }

  /** The loop goes on until the input or the commands come to their end, and reads the input in order. */
  lemma HowTheLoopGoesOn(s: State, step: Step)
    requires Enabled(s, step)
    ensures var after := Do(s, step);
            && after.input == s.input
            && after.consumed == s.consumed + (if step.Broadcast? then step.n else 0)
            && (after.phase == Running <==> s.phase == Running && !step.EndOfInput? && !step.EndOfCommands?)
            && (after.phase == InputEnded <==> s.phase == InputEnded || step.EndOfInput?)
  {
  }

  // ----- the invariant -----

  /** It has been written exactly the input from where it joined, and its credit account balances. */
  ghost predicate GoodReceiver(input: seq<Byte>, consumed: nat, r: Receiver)
    requires consumed <= |input|
  {
    && r.joinedAt <= consumed
    && r.written == input[r.joinedAt..consumed]
    && r.pending <= r.read <= |r.written|
    && r.pending < TRANSFER_CREDIT_GRANT_BYTES
    && r.available + Sum(r.credits) + |r.written|
         == (if r.started then TRANSFER_WINDOW_BYTES + r.read - r.pending else 0)
    && (!r.active ==> r.available == 0 && r.joinedAt == consumed)
    && (r.active ==> r.started)
    && (!r.started ==> r.credits == [])
  }

  ghost predicate AllGood(input: seq<Byte>, consumed: nat, receivers: map<ReceiverId, Receiver>)
    requires consumed <= |input|
  {
    forall id | id in receivers :: GoodReceiver(input, consumed, receivers[id])
  }

  ghost predicate Inv(s: State) {
    && s.consumed <= |s.input| <= U64_MAX
    && AllGood(s.input, s.consumed, s.receivers)
    && (s.phase == InputEnded ==> s.consumed == |s.input|)
  }

  lemma NewReceiverGood(input: seq<Byte>, consumed: nat)
    requires consumed <= |input|
    ensures GoodReceiver(input, consumed, NewReceiver(consumed))
  {
  }

  lemma ReadsGood(input: seq<Byte>, consumed: nat, r: Receiver, n: nat)
    requires consumed <= |input| <= U64_MAX && GoodReceiver(input, consumed, r)
    requires r.started && r.read + n <= |r.written|
    ensures GoodReceiver(input, consumed, Reads(r, n))
  {
    SumAppend(r.credits, r.pending + n);
  }

  lemma StartsGood(input: seq<Byte>, consumed: nat, r: Receiver)
    requires consumed <= |input| && GoodReceiver(input, consumed, r) && !r.started
    ensures GoodReceiver(input, consumed, Starts(r))
  {
    SumAppend(r.credits, TRANSFER_WINDOW_BYTES);
  }

  lemma CreditedGood(input: seq<Byte>, consumed: nat, r: Receiver)
    requires consumed <= |input| <= U64_MAX && GoodReceiver(input, consumed, r) && r.credits != []
    ensures GoodReceiver(input, consumed, Credited(r))
  {
  }

  lemma SentGood(input: seq<Byte>, consumed: nat, r: Receiver, n: nat)
    requires consumed + n <= |input| && GoodReceiver(input, consumed, r) && r.active && n <= r.available
    ensures GoodReceiver(input, consumed + n, Sent(r, input[consumed..consumed + n]))
  {
    assert input[r.joinedAt..consumed] + input[consumed..consumed + n] == input[r.joinedAt..consumed + n];
  }

  lemma SentToAllGood(input: seq<Byte>, consumed: nat, receivers: map<ReceiverId, Receiver>, n: nat,
                      failed: set<ReceiverId>, consumed': nat, receivers': map<ReceiverId, Receiver>)
    requires consumed' == consumed + n <= |input| && AllGood(input, consumed, receivers)
    requires forall id | id in receivers :: receivers[id].active && n <= receivers[id].available
    requires receivers' == SentToAll(receivers, input[consumed..consumed + n], failed)
    ensures AllGood(input, consumed', receivers')
  {
    forall id | id in receivers' ensures GoodReceiver(input, consumed', receivers'[id]) {
      SentGood(input, consumed, receivers[id], n);
    }
  }

  lemma UpdateKeepsGood(input: seq<Byte>, consumed: nat, receivers: map<ReceiverId, Receiver>, id: ReceiverId,
                        r: Receiver)
    requires consumed <= |input| && AllGood(input, consumed, receivers) && GoodReceiver(input, consumed, r)
    ensures AllGood(input, consumed, receivers[id := r])
  {
  }

  lemma RemovalKeepsGood(input: seq<Byte>, consumed: nat, receivers: map<ReceiverId, Receiver>, id: ReceiverId)
    requires consumed <= |input| && AllGood(input, consumed, receivers)
    ensures AllGood(input, consumed, receivers - {id})
  {
  }

  lemma BroadcastFits(s: State, n: nat, failed: set<ReceiverId>)
    requires Enabled(s, Broadcast(n, failed))
    ensures s.phase == Running && s.consumed + n <= |s.input|
    ensures forall id | id in s.receivers :: s.receivers[id].active && n <= s.receivers[id].available
  {
  }

  lemma BroadcastKeepsInv(s: State, n: nat, failed: set<ReceiverId>)
    requires Inv(s) && Enabled(s, Broadcast(n, failed))
    ensures Inv(Do(s, Broadcast(n, failed)))
  {
    BroadcastFits(s, n, failed);
    var after := Do(s, Broadcast(n, failed));
    SentToAllGood(s.input, s.consumed, s.receivers, n, failed, after.consumed, after.receivers);
  }

  lemma ObeyKeepsInv(s: State, command: Command)
    requires Inv(s) && s.phase == Running
    ensures Inv(s.(receivers := Obeyed(s.receivers, command, s.consumed)))
  {
    NewReceiverGood(s.input, s.consumed);
    UpdateKeepsGood(s.input, s.consumed, s.receivers, command.id, NewReceiver(s.consumed));
    RemovalKeepsGood(s.input, s.consumed, s.receivers, command.id);
  }

  lemma UpdateKeepsInv(s: State, id: ReceiverId, r: Receiver)
    requires Inv(s) && GoodReceiver(s.input, s.consumed, r)
    ensures Inv(s.(receivers := s.receivers[id := r]))
  {
    UpdateKeepsGood(s.input, s.consumed, s.receivers, id, r);
  }

  /** Every step of the sender and of any receiver keeps everybody's stream contiguous and their credit balanced. */
  lemma StepKeepsInv(s: State, step: Step)
    requires Inv(s) && Enabled(s, step)
    ensures Inv(Do(s, step))
  {
    match step
    case Obey(command) => ObeyKeepsInv(s, command);
    case CreditArrives(id) =>
      CreditedGood(s.input, s.consumed, s.receivers[id]);
      UpdateKeepsInv(s, id, Credited(s.receivers[id]));
    case CreditFails(id) => RemovalKeepsGood(s.input, s.consumed, s.receivers, id);
    case Broadcast(n, failed) => BroadcastKeepsInv(s, n, failed);
    case ReceiverStarts(id) =>
      StartsGood(s.input, s.consumed, s.receivers[id]);
      UpdateKeepsInv(s, id, Starts(s.receivers[id]));
    case ReceiverReads(id, n) =>
      ReadsGood(s.input, s.consumed, s.receivers[id], n);
      UpdateKeepsInv(s, id, Reads(s.receivers[id], n));
    case _ =>
  }

  // ----- safety and progress of the sending loop -----

  /** When input is read, everybody is active and has credit for all of the chunk: no subtraction saturates. */
  lemma ChunkFitsEverybody(s: State, n: nat, failed: set<ReceiverId>, id: ReceiverId)
    requires Enabled(s, Broadcast(n, failed)) && id in s.receivers
    ensures s.receivers[id].active && n <= s.receivers[id].available
    ensures SaturatingSub(s.receivers[id].available, n) == s.receivers[id].available - n
  {
  }

  ghost predicate Holds(receivers: map<ReceiverId, Receiver>, id: ReceiverId, pending: bool)
    requires id in receivers
  {
    if pending then !receivers[id].active else receivers[id].active && receivers[id].available == 0
  }

  lemma FirstOf(receivers: map<ReceiverId, Receiver>, some: ReceiverId, pending: bool) returns (first: ReceiverId)
    requires some in receivers && Holds(receivers, some, pending)
    ensures first in receivers && Holds(receivers, first, pending)
    ensures forall other | other in receivers && Below(other, first) :: !Holds(receivers, other, pending)
  {
    var all := set id | id in receivers && Holds(receivers, id, pending);
    assert some in all;
    LeastExists(all);
    first :| Least(first, all);
    forall other | other in receivers && Below(other, first) ensures !Holds(receivers, other, pending) {
      if other in all { BelowAsymmetric(other, first); }
    }
  }

  /**
    The sending loop never spins: with receivers present it either has a definite receiver to wait for, or every
    receiver is active with credit left and it reads the input.
  */
  lemma NeverSpins(s: State)
    requires s.receivers != map[]
    ensures ReadyToRead(s) || exists id :: AwaitsCredit(s.receivers, id)
    ensures AllActive(s.receivers) && IsChunkLen(s.receivers, 0) ==> exists id :: FirstBlocked(s.receivers, id)
  {
    if !AllActive(s.receivers) {
      var some :| some in s.receivers && !s.receivers[some].active;
      var first := FirstOf(s.receivers, some, true);
      assert AwaitsCredit(s.receivers, first);
    } else if exists some :: some in s.receivers && s.receivers[some].available == 0 {
      var some :| some in s.receivers && s.receivers[some].available == 0;
      var first := FirstOf(s.receivers, some, false);
      assert AwaitsCredit(s.receivers, first);
    }
  }

  /** The first of some receivers in key order. */
  ghost predicate IsLeast(ids: set<ReceiverId>, id: ReceiverId) {
    id in ids && forall other | other in ids :: other == id || Below(id, other)
  }

  /** The receivers that have not granted any credit yet. */
  ghost function Silent(receivers: map<ReceiverId, Receiver>): set<ReceiverId> {
    set id | id in receivers && !receivers[id].active
  }

  /** The receivers that have used up what they granted, if any. */
  ghost function Spent(receivers: map<ReceiverId, Receiver>): set<ReceiverId> {
    set id | id in receivers && receivers[id].available == 0
  }

  /**
    Credit is awaited of one receiver at a time: of the first that has never granted any, and only when there is none
    of the first that has used up what it granted.
  */
  lemma WhoIsAwaited(receivers: map<ReceiverId, Receiver>, id: ReceiverId)
    ensures AwaitsCredit(receivers, id) <==>
            IsLeast(if Silent(receivers) != {} then Silent(receivers) else Spent(receivers), id)
  {
    forall other | other in receivers && Below(other, id)
      ensures !Below(id, other) && other != id
      ensures other in Silent(receivers) <==> !receivers[other].active
      ensures other in Spent(receivers) <==> receivers[other].available == 0
    {
      BelowAsymmetric(other, id);
    }
    forall other | other in receivers ensures other == id || Below(id, other) || Below(other, id) {
      BelowTotal(other, id);
    }
    assert AllActive(receivers) <==> Silent(receivers) == {} by {
      assert forall r | r in receivers :: r in Silent(receivers) <==> !receivers[r].active;
    }
  }

  /**
    A receiver that is waited for always answers: its credit is on the way, or it can start or read on; and its own
    turns cannot go on for ever before a credit is on the way.
  */
  lemma AwaitedReceiverAnswers(s: State, id: ReceiverId)
    requires Inv(s) && AwaitsCredit(s.receivers, id)
    ensures var r := s.receivers[id];
      || r.credits != []
      || Enabled(s, ReceiverStarts(id))
      || Enabled(s, ReceiverReads(id, 1))
    ensures forall n | Enabled(s, ReceiverReads(id, n)) ::
      var r, r' := s.receivers[id], Do(s, ReceiverReads(id, n)).receivers[id];
      |r'.written| - r'.read < |r.written| - r.read
  {
    var r := s.receivers[id];
    if r.started && r.credits == [] {
      assert Sum(r.credits) == 0;
      assert |r.written| - r.read == TRANSFER_WINDOW_BYTES - r.pending;
    }
  }

  // ----- whole runs -----

  ghost predicate IsRun(from: State, steps: seq<Step>, to: State)
    decreases steps
  {
    if steps == [] then from == to
    else Enabled(from, steps[0]) && IsRun(Do(from, steps[0]), steps[1..], to)
  }

  lemma {:induction false} RunKeepsInv(from: State, steps: seq<Step>, to: State)
    requires Inv(from) && IsRun(from, steps, to)
    ensures Inv(to) && to.input == from.input
    decreases steps
  {
    if steps != [] {
      StepKeepsInv(from, steps[0]);
      RunKeepsInv(Do(from, steps[0]), steps[1..], to);
    }
  }

  lemma {:induction false} RunsCompose(a: State, first: seq<Step>, b: State, second: seq<Step>, c: State)
    requires IsRun(a, first, b) && IsRun(b, second, c)
    ensures IsRun(a, first + second, c)
    decreases first
  {
    if first == [] {
      assert first + second == second;
    } else {
      assert (first + second)[1..] == first[1..] + second;
      RunsCompose(Do(a, first[0]), first[1..], b, second, c);
    }
  }

  /**
    Lossless. Whatever commands, credits, failures and reads are interleaved: a receiver present when the input ends
    has been written the input from where it joined to the end, without a gap, and what it has read of that is a
    prefix at most one window behind.
  */
  lemma EveryRunIsLossless(start: State, steps: seq<Step>, end: State, id: ReceiverId)
    requires start.consumed == 0 && |start.input| <= U64_MAX && start.phase == Running
    requires forall r | r in start.receivers :: start.receivers[r] == NewReceiver(0)
    requires IsRun(start, steps, end) && end.phase == InputEnded && id in end.receivers
    ensures var r := end.receivers[id];
      && r.joinedAt <= |start.input|
      && r.written == start.input[r.joinedAt..]
      && r.read <= |r.written| <= r.read + TRANSFER_WINDOW_BYTES
  {
    NewReceiverGood(start.input, 0);
    RunKeepsInv(start, steps, end);
  }

  // ----- coming and going -----

  /** An added receiver is there with everything still before it, a removed one is gone, and nobody else is touched. */
  lemma ObeyingTouchesOne(receivers: map<ReceiverId, Receiver>, command: Command, at: nat)
    ensures var after := Obeyed(receivers, command, at);
            && (command.AddReceiver? ==>
                  && command.id in after
                  && var r := after[command.id];
                     && !r.active && r.available == 0 && r.written == [] && r.joinedAt == at
                     && !r.started && r.read == 0 && r.pending == 0 && r.credits == [])
            && (command.RemoveReceiver? ==> command.id !in after)
            && forall other | other != command.id ::
                 && (other in after <==> other in receivers)
                 && (other in receivers ==> after[other] == receivers[other])
  {
  }

  /** Receiver `id` is neither removed nor added anew, and its streams do not fail. */
  predicate Spares(step: Step, id: ReceiverId) {
    match step
    case Obey(command) => command.id != id
    case CreditFails(other) => other != id
    case Broadcast(_, failed) => id !in failed
    case _ => true
  }

  /** The state that a run has come to after some of its steps. */
  ghost function StateAt(from: State, steps: seq<Step>, to: State, k: nat): State
    requires IsRun(from, steps, to) && k <= |steps|
    decreases steps
  {
    if k == 0 then from else StateAt(Do(from, steps[0]), steps[1..], to, k - 1)
  }

  lemma {:induction false} RunFrom(from: State, steps: seq<Step>, to: State, k: nat)
    requires IsRun(from, steps, to) && k <= |steps|
    ensures IsRun(from, steps[..k], StateAt(from, steps, to, k)) && IsRun(StateAt(from, steps, to, k), steps[k..], to)
    decreases steps
  {
    if k > 0 {
      RunFrom(Do(from, steps[0]), steps[1..], to, k - 1);
      assert steps[..k][1..] == steps[1..][..k - 1] && steps[1..][k - 1..] == steps[k..];
    }
  }

  lemma {:induction false} SparedStep(s: State, step: Step, id: ReceiverId)
    requires Enabled(s, step) && Spares(step, id)
    ensures id in Do(s, step).receivers <==> id in s.receivers
    ensures id in s.receivers ==> Do(s, step).receivers[id].joinedAt == s.receivers[id].joinedAt
  {
  }

  lemma {:induction false} SparedRun(from: State, steps: seq<Step>, to: State, id: ReceiverId)
    requires IsRun(from, steps, to) && forall i | 0 <= i < |steps| :: Spares(steps[i], id)
    ensures id in to.receivers <==> id in from.receivers
    ensures id in from.receivers ==> to.receivers[id].joinedAt == from.receivers[id].joinedAt
    decreases steps
  {
    if steps != [] {
      SparedStep(from, steps[0], id);
      assert forall i | 0 <= i < |steps[1..]| :: steps[1..][i] == steps[i + 1];
      SparedRun(Do(from, steps[0]), steps[1..], to, id);
    }
  }

  /**
    A receiver that is added in a run and left in place from then on is there at its end, and has been written exactly
    the input from where it was added; one that is removed and not added anew is not there.
  */
  lemma {:induction false} LateReceiverIsServed(start: State, steps: seq<Step>, end: State, i: nat)
    requires start.consumed == 0 && |start.input| <= U64_MAX && start.phase == Running
    requires forall r | r in start.receivers :: start.receivers[r] == NewReceiver(0)
    requires IsRun(start, steps, end) && i < |steps| && steps[i].Obey?
    requires forall j | i < j < |steps| :: Spares(steps[j], steps[i].command.id)
    ensures StateAt(start, steps, end, i).consumed <= end.consumed <= |start.input|
    ensures var id, k := steps[i].command.id, StateAt(start, steps, end, i).consumed;
            if steps[i].command.AddReceiver?
            then
              && id in end.receivers && end.receivers[id].written == start.input[k..end.consumed]
              && (end.phase == InputEnded ==> end.receivers[id].written == start.input[k..])
            else id !in end.receivers
  {
    var before := StateAt(start, steps, end, i);
    NewReceiverGood(start.input, 0);
    RunFrom(start, steps, end, i);
    RunKeepsInv(start, steps[..i], before);
    assert steps[i..][0] == steps[i] && steps[i..][1..] == steps[i + 1..];
    AfterObeying(before, steps[i].command, steps[i + 1..], end);
  }

  lemma {:induction false} AfterObeying(before: State, command: Command, rest: seq<Step>, end: State)
    requires Inv(before) && Enabled(before, Obey(command)) && IsRun(Do(before, Obey(command)), rest, end)
    requires forall j | 0 <= j < |rest| :: Spares(rest[j], command.id)
    ensures end.input == before.input && before.consumed <= end.consumed <= |end.input|
    ensures if command.AddReceiver?
            then
              && command.id in end.receivers
              && end.receivers[command.id].written == end.input[before.consumed..end.consumed]
              && (end.phase == InputEnded ==> end.consumed == |end.input|)
            else command.id !in end.receivers
  {
    var after := Do(before, Obey(command));
    ObeyingTouchesOne(before.receivers, command, before.consumed);
    StepKeepsInv(before, Obey(command));
    RunKeepsInv(after, rest, end);
    SparedRun(after, rest, end, command.id);
    ConsumesMore(after, rest, end);
  }

  lemma {:induction false} ConsumesMore(from: State, steps: seq<Step>, to: State)
    requires IsRun(from, steps, to)
    ensures from.consumed <= to.consumed
    decreases steps
  {
    if steps != [] {
      ConsumesMore(Do(from, steps[0]), steps[1..], to);
    }
  }

  // ----- an awaited credit comes -----

  predicate OwnTurn(step: Step, id: ReceiverId) {
    (step.ReceiverStarts? || step.ReceiverReads?) && step.id == id
  }

  function OwnTurns(steps: seq<Step>, id: ReceiverId): nat {
    if steps == [] then 0 else (if OwnTurn(steps[0], id) then 1 else 0) + OwnTurns(steps[1..], id)
  }

  /** At some point of a run a credit of `id` is on its way. */
  ghost predicate CreditOnTheWay(from: State, steps: seq<Step>, to: State, id: ReceiverId)
    requires IsRun(from, steps, to)
    decreases steps
  {
    || (id in from.receivers && from.receivers[id].credits != [])
    || (steps != [] && CreditOnTheWay(Do(from, steps[0]), steps[1..], to, id))
  }

  /** After so many turns of its own a receiver without credit has granted some. */
  function TurnsToCredit(r: Receiver): nat {
    if r.started then SaturatingSub(TRANSFER_CREDIT_GRANT_BYTES, r.pending) else 1
  }

  /** Nobody else's step, and none of the sender's, changes a receiver that has no credit left and none on the way. */
  lemma {:induction false} OthersLeaveIt(s: State, step: Step, id: ReceiverId)
    requires Enabled(s, step) && Spares(step, id) && !OwnTurn(step, id)
    requires id in s.receivers && s.receivers[id].available == 0 && s.receivers[id].credits == []
    ensures id in Do(s, step).receivers && Do(s, step).receivers[id] == s.receivers[id]
  {
  }

  lemma {:induction false} OwnTurnCounts(s: State, step: Step, id: ReceiverId)
    requires Inv(s) && Enabled(s, step) && OwnTurn(step, id)
    requires id in s.receivers && s.receivers[id].available == 0 && s.receivers[id].credits == []
    ensures id in Do(s, step).receivers
    ensures var r := Do(s, step).receivers[id];
            r.available == 0 && (r.credits != [] || TurnsToCredit(r) < TurnsToCredit(s.receivers[id]))
  {
  }

  /**
    A receiver that is left in place and has no credit grants some after a bounded number of its own turns, however they
    are interleaved with everybody else's.
  */
  lemma {:induction false} AwaitedCreditComes(from: State, steps: seq<Step>, to: State, id: ReceiverId)
    requires Inv(from) && IsRun(from, steps, to) && id in from.receivers && from.receivers[id].available == 0
    requires forall i | 0 <= i < |steps| :: Spares(steps[i], id)
    requires OwnTurns(steps, id) >= TurnsToCredit(from.receivers[id])
    ensures CreditOnTheWay(from, steps, to, id)
    ensures TurnsToCredit(from.receivers[id]) <= TRANSFER_CREDIT_GRANT_BYTES
    decreases steps
  {
    if from.receivers[id].credits == [] {
      assert GoodReceiver(from.input, from.consumed, from.receivers[id]);
      var next := Do(from, steps[0]);
      StepKeepsInv(from, steps[0]);
      if OwnTurn(steps[0], id) {
        OwnTurnCounts(from, steps[0], id);
      } else {
        OthersLeaveIt(from, steps[0], id);
      }
      if next.receivers[id].credits == [] {
        AwaitedCreditComes(next, steps[1..], to, id);
      }
    }
  }

  // ----- the sending loop with its own variables -----

  /** The receivers once the chunk has been offered to those in `done`. */
  ghost function WrittenTo(was: map<ReceiverId, Receiver>, done: seq<ReceiverId>, chunk: seq<Byte>,
                           failed: set<ReceiverId>): map<ReceiverId, Receiver>
  {
    map id | id in was && (id in done ==> id !in failed) :: if id in done then Sent(was[id], chunk) else was[id]
  }

  lemma WrittenToAll(was: map<ReceiverId, Receiver>, keys: seq<ReceiverId>, chunk: seq<Byte>, failed: set<ReceiverId>)
    requires forall id | id in was :: id in keys
    ensures WrittenTo(was, [], chunk, failed) == was
    ensures WrittenTo(was, keys, chunk, failed) == SentToAll(was, chunk, failed)
  {
  }

  lemma WrittenNext(was: map<ReceiverId, Receiver>, keys: seq<ReceiverId>, i: nat, chunk: seq<Byte>,
                    failed: set<ReceiverId>)
    requires i < |keys| && keys[i] in was && keys[i] !in keys[..i]
    ensures var before := WrittenTo(was, keys[..i], chunk, failed);
            && keys[i] in before && before[keys[i]] == was[keys[i]]
            && WrittenTo(was, keys[..i + 1], chunk, failed)
                 == if keys[i] in failed then before - {keys[i]} else before[keys[i] := Sent(was[keys[i]], chunk)]
  {
    assert keys[..i + 1] == keys[..i] + [keys[i]];
  }

  lemma PendingAt(receivers: map<ReceiverId, Receiver>, keys: seq<ReceiverId>, i: nat)
    requires keys == Sorted(receivers.Keys) && i < |keys| && !receivers[keys[i]].active
    requires forall j | 0 <= j < i :: receivers[keys[j]].active
    ensures FirstPending(receivers, keys[i])
  {
    SortedAscends(receivers.Keys);
    forall other | other in receivers && Below(other, keys[i]) ensures receivers[other].active {
      BelowComesEarlier(keys, i, other);
    }
  }

  lemma BlockedAt(receivers: map<ReceiverId, Receiver>, keys: seq<ReceiverId>, i: nat)
    requires keys == Sorted(receivers.Keys) && i < |keys| && Holds(receivers, keys[i], false)
    requires forall j | 0 <= j < i :: !Holds(receivers, keys[j], false)
    ensures FirstBlocked(receivers, keys[i])
  {
    SortedAscends(receivers.Keys);
    forall other | other in receivers && Below(other, keys[i]) ensures !Holds(receivers, other, false) {
      BelowComesEarlier(keys, i, other);
    }
  }

  class Broadcaster {
    const input: seq<Byte>
    var consumed: nat
    var receivers: map<ReceiverId, Receiver>
    var phase: Phase

    ghost function View(): State
      reads this
    {
      State(input, consumed, receivers, phase)
    }

    constructor (input: seq<Byte>, ids: set<ReceiverId>)
      ensures View() == State(input, 0, map id | id in ids :: NewReceiver(0), Running)
    {
      this.input, consumed, phase := input, 0, Running;
      receivers := map id | id in ids :: NewReceiver(0);
    }

    method FirstPendingReceiver() returns (r: Option<ReceiverId>)
      ensures match r case Some(id) => FirstPending(receivers, id) case None => AllActive(receivers)
    {
      var keys := Sorted(receivers.Keys);
      for i := 0 to |keys|
        invariant forall j | 0 <= j < i :: receivers[keys[j]].active
      {
        if !receivers[keys[i]].active {
          PendingAt(receivers, keys, i);
          return Some(keys[i]);
        }
      }
      assert forall id | id in receivers :: id in keys;
      r := None;
    }

    method FirstBlockedActiveReceiver() returns (r: Option<ReceiverId>)
      ensures match r
              case Some(id) => FirstBlocked(receivers, id)
              case None => forall id | id in receivers && receivers[id].active :: receivers[id].available > 0
    {
      var keys := Sorted(receivers.Keys);
      for i := 0 to |keys|
        invariant forall j | 0 <= j < i :: !Holds(receivers, keys[j], false)
      {
        if receivers[keys[i]].active && receivers[keys[i]].available == 0 {
          BlockedAt(receivers, keys, i);
          return Some(keys[i]);
        }
      }
      assert forall id | id in receivers :: id in keys;
      r := None;
    }

    /** `min` over the active receivers' credit, 0 for none, capped at one chunk. */
    method ChunkLen() returns (n: nat)
      requires receivers != map[] && AllActive(receivers)
      ensures IsChunkLen(receivers, n)
    {
      var keys := Sorted(receivers.Keys);
      assert |keys| > 0 by {
        var id :| id in receivers;
        assert id in keys;
      }
      var least := receivers[keys[0]].available;
      ghost var at := keys[0];
      for i := 1 to |keys|
        invariant at in keys && receivers[at].available == least
        invariant forall id | id in keys[..i] :: least <= receivers[id].available
      {
        assert keys[..i + 1] == keys[..i] + [keys[i]];
        if receivers[keys[i]].available < least {
          at := keys[i];
        }
        least := Min(least, receivers[keys[i]].available);
      }
      assert keys[..|keys|] == keys;
      n := Min(least, PIPE_CHUNK_BYTES);
    }

    method ApplyBroadcastCommand(command: Command)
      modifies this`receivers
      ensures receivers == Obeyed(old(receivers), command, consumed)
    {
      match command
      case AddReceiver(id) => receivers := receivers[id := NewReceiver(consumed)];
      case RemoveReceiver(id) => receivers := receivers - {id};
    }

    method WaitForReceiverCredit(id: ReceiverId)
      requires id in receivers && receivers[id].credits != []
      modifies this`receivers
      ensures receivers == old(receivers)[id := Credited(old(receivers)[id])]
    {
      var receiver := receivers[id];
      receivers := receivers[id := receiver.(
        available := SaturatingAdd(receiver.available, receiver.credits[0]),
        credits := receiver.credits[1..],
        active := true)];
    }

    /** Writes one chunk to every receiver in key order; those whose stream refuses it are removed. */
    method WriteToAll(chunk: seq<Byte>, failed: set<ReceiverId>)
      requires AllActive(receivers)
      modifies this`receivers
      ensures receivers == SentToAll(old(receivers), chunk, failed)
    {
      var keys := Sorted(receivers.Keys);
      ghost var was := receivers;
      SortedAscends(receivers.Keys);
      AscendingDistinct(keys);
      WrittenToAll(was, keys, chunk, failed);
      for i := 0 to |keys|
        invariant receivers == WrittenTo(was, keys[..i], chunk, failed)
      {
        WrittenNext(was, keys, i, chunk, failed);
        if keys[i] in failed {
          receivers := receivers - {keys[i]};
        } else {
          receivers := receivers[keys[i] := Sent(receivers[keys[i]], chunk)];
        }
      }
      assert keys[..|keys|] == keys;
    }

    /** Commands that are already queued are obeyed before anything else. */
    method DrainCommands(queued: seq<Command>) returns (ghost steps: seq<Step>)
      requires phase == Running
      modifies this`receivers
      ensures IsRun(old(View()), steps, View()) && phase == Running
    {
      steps := [];
      ghost var start := View();
      for i := 0 to |queued|
        invariant IsRun(start, steps, View()) && phase == Running
      {
        ghost var before := View();
        ApplyBroadcastCommand(queued[i]);
        assert IsRun(Do(before, Obey(queued[i])), [], View());
        RunsCompose(start, steps, before, [Obey(queued[i])], View());
        steps := steps + [Obey(queued[i])];
      }
    }

    /** Waiting for a receiver: its credit comes, its stream fails, or a command comes first, or none ever will. */
    method Await(id: ReceiverId, command: Option<Command>, closed: bool, fails: bool) returns (ghost steps: seq<Step>)
      requires phase == Running && AwaitsCredit(receivers, id)
      modifies this
      ensures IsRun(old(View()), steps, View())
    {
      ghost var before := View();
      steps := [];
      if command.Some? {
        steps := [Obey(command.value)];
        ApplyBroadcastCommand(command.value);
      } else if closed {
        steps := [EndOfCommands];
        phase := CommandsEnded;
      } else if fails {
        steps := [CreditFails(id)];
        receivers := receivers - {id};
      } else if receivers[id].credits != [] {
        steps := [CreditArrives(id)];
        WaitForReceiverCredit(id);
      }
      if steps != [] {
        assert View() == Do(before, steps[0]);
        assert IsRun(View(), steps[1..], View());
      }
    }

    /** Reading the input once everybody can take a chunk. */
    method ReadAndBroadcast(chunkLen: nat, command: Option<Command>, closed: bool, ask: nat, failed: set<ReceiverId>)
      returns (ghost steps: seq<Step>)
      requires phase == Running && ReadyToRead(View()) && IsChunkLen(receivers, chunkLen) && chunkLen > 0
      requires consumed <= |input|
      modifies this
      ensures IsRun(old(View()), steps, View())
    {
      ghost var before := View();
      var read := Min(|input| - consumed, if 0 < ask <= chunkLen then ask else chunkLen);
      if command.Some? {
        steps := [Obey(command.value)];
        ApplyBroadcastCommand(command.value);
      } else if closed {
        steps := [EndOfCommands];
        phase := CommandsEnded;
      } else if read == 0 {
        steps := [EndOfInput];
        phase := InputEnded;
      } else {
        steps := [Broadcast(read, failed)];
        assert Enabled(before, steps[0]);
        WriteToAll(input[consumed..consumed + read], failed);
        consumed := consumed + read;
      }
      assert View() == Do(before, steps[0]);
      assert IsRun(View(), steps[1..], View());
    }

    /** One iteration of the sending loop; where it would have to wait and nothing comes, it takes no step. */
    method Iterate(queued: seq<Command>, command: Option<Command>, closed: bool, fails: bool, ask: nat,
                   failed: set<ReceiverId>) returns (ghost steps: seq<Step>)
      requires Inv(View()) && phase == Running
      modifies this
      ensures IsRun(old(View()), steps, View()) && Inv(View())
    {
      ghost var start := View();
      steps := DrainCommands(queued);
      RunKeepsInv(start, steps, View());
      ghost var middle := View();
      ghost var more: seq<Step> := [];
      if receivers == map[] {
        if command.Some? {
          more := [Obey(command.value)];
          ApplyBroadcastCommand(command.value);
          assert IsRun(View(), more[1..], View());
        } else if closed {
          more := [EndOfCommands];
          phase := CommandsEnded;
          assert IsRun(View(), more[1..], View());
        }
      } else {
        var pending := FirstPendingReceiver();
        if pending.Some? {
          more := Await(pending.value, command, closed, fails);
        } else {
          var chunkLen := ChunkLen();
          if chunkLen == 0 {
            NeverSpins(View());
            var blocked := FirstBlockedActiveReceiver();
            more := Await(blocked.value, command, closed, fails);
          } else {
            more := ReadAndBroadcast(chunkLen, command, closed, ask, failed);
          }
        }
      }
      RunsCompose(start, steps, middle, more, View());
      steps := steps + more;
      RunKeepsInv(start, steps, View());
    }
  }

  // ----- a receiver's loop -----

  function Concat(chunks: seq<seq<Byte>>): seq<Byte> {
    if chunks == [] then [] else Concat(chunks[..|chunks| - 1]) + chunks[|chunks| - 1]
  }

  /** The grants that fall due while chunks are read, the window first, and what is left to be granted after them. */
  function GrantsDue(chunks: seq<seq<Byte>>): (seq<nat>, nat) {
    if chunks == [] then ([TRANSFER_WINDOW_BYTES], 0)
    else
      var before := GrantsDue(chunks[..|chunks| - 1]);
      var pending := SaturatingAdd(before.1, |chunks[|chunks| - 1]|);
      if pending >= TRANSFER_CREDIT_GRANT_BYTES then (before.0 + [pending], 0) else (before.0, pending)
  }

  /** At the end of its stream a receiver also grants what is left. */
  function AllGrants(chunks: seq<seq<Byte>>, broken: bool): seq<nat> {
    var due := GrantsDue(chunks);
    if !broken && due.1 > 0 then due.0 + [due.1] else due.0
  }

  lemma {:induction false} GrantsDueAddUp(chunks: seq<seq<Byte>>)
    requires |Concat(chunks)| <= U64_MAX
    ensures var due := GrantsDue(chunks);
            && due.0 != [] && due.1 < TRANSFER_CREDIT_GRANT_BYTES && due.1 <= |Concat(chunks)|
            && Sum(due.0) + due.1 == TRANSFER_WINDOW_BYTES + |Concat(chunks)|
            && forall i | 0 <= i < |due.0| :: due.0[i] >= TRANSFER_CREDIT_GRANT_BYTES
  {
    if chunks == [] {
      assert Sum([TRANSFER_WINDOW_BYTES]) == TRANSFER_WINDOW_BYTES;
    } else {
      var n := |chunks| - 1;
      var before := GrantsDue(chunks[..n]);
      GrantsDueAddUp(chunks[..n]);
      SumAppend(before.0, before.1 + |chunks[n]|);
    }
  }

  /**
    The grants of a stream that has ended are the window and exactly what has been received, each but the last a quarter
    window or more.
  */
  lemma {:induction false} GrantsAddUp(chunks: seq<seq<Byte>>)
    requires |Concat(chunks)| <= U64_MAX
    ensures var all := AllGrants(chunks, false);
            && Sum(all) == TRANSFER_WINDOW_BYTES + |Concat(chunks)|
            && forall i | 0 <= i < |all| - 1 :: all[i] >= TRANSFER_CREDIT_GRANT_BYTES
  {
    var due := GrantsDue(chunks);
    GrantsDueAddUp(chunks);
    SumAppend(due.0, due.1);
  }

  /**
    The whole loop of one receiver, for any way its stream is cut into reads. The first `writes` grants get through and
    the next one does not, if there are so many; `broken` when a read or the output fails after these chunks. It passes
    on every byte in order, and goes on doing so when a grant has been refused, but for the first.
  */
  method ReceivePipeStream(chunks: seq<seq<Byte>>, broken: bool, writes: nat)
    returns (ok: bool, output: seq<Byte>, grants: seq<nat>)
    ensures ok <==> writes > 0 && !broken
    ensures output == if writes > 0 then Concat(chunks) else []
    ensures var all := AllGrants(chunks, broken); grants == if writes <= |all| then all[..writes] else all
  {
    output, grants := [], [];
    if writes == 0 {
      return false, output, grants;
    }
    grants := [TRANSFER_WINDOW_BYTES];
    var creditPending: nat := 0;
    var creditStreamOpen := true;
    for i := 0 to |chunks|
      invariant output == Concat(chunks[..i])
      invariant GrantedSoFar(GrantsDue(chunks[..i]), writes, grants, creditPending, creditStreamOpen)
    {
      assert chunks[..i + 1][..i] == chunks[..i];
      output := output + chunks[i];
      creditPending := SaturatingAdd(creditPending, |chunks[i]|);
      if creditStreamOpen && creditPending >= TRANSFER_CREDIT_GRANT_BYTES {
        if |grants| < writes {
          grants := grants + [creditPending];
          creditPending := 0;
        } else {
          creditStreamOpen := false;
        }
      }
    }
    assert chunks[..|chunks|] == chunks;
    ghost var due, all := GrantsDue(chunks), AllGrants(chunks, broken);
    assert writes <= |due.0| ==> all[..writes] == due.0[..writes];
    assert due.0[..|due.0|] == due.0;
    if broken {
      return false, output, grants;
    }
    if creditStreamOpen && creditPending > 0 && |grants| < writes {
      grants := grants + [creditPending];
    }
    ok := true;
  }

  /** While the credit stream is open every grant due has got through; it closes at the first that does not. */
  ghost predicate GrantedSoFar(due: (seq<nat>, nat), writes: nat, grants: seq<nat>, pending: nat, open: bool) {
    if open then grants == due.0 && pending == due.1 && |grants| <= writes
    else |grants| == writes < |due.0| && grants == due.0[..writes]
  }
}
