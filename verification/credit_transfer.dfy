/**
  Sending one file under receiver credit: two loops, a byte stream one way and a credit stream the other.
  A step is one iteration of either loop; every interleaving is a sequence of steps.
*/
module CreditTransfer {
  import opened Bytes
  import opened TransferLimits

  datatype Sender = AwaitingCredit | Serving | Served | SourceShort

  datatype Receiver = Starting | Receiving | Received | Failed

  datatype State = State(
    sender: Sender, available: nat, sent: nat,
    data: seq<Byte>, credits: seq<nat>,
    receiver: Receiver, got: seq<Byte>, pending: nat, creditOpen: bool)

  predicate Initial(s: State) {
    s == State(AwaitingCredit, 0, 0, [], [], Starting, [], 0, true)
  }

  datatype Step =
    | GrantWindow                      // the receiver grants the initial window
    | TakeCredit                       // the sender reads one credit message
    | SendChunk(n: nat)                // the sender reads n bytes of the source and writes them
    | SourceEnds                       // the source has no more bytes although more were announced
    | FinishSending
    | Read(n: nat, granted: bool)      // the receiver reads n bytes; a grant, if due, does or does not get through
    | FinishReceiving
    | Abort                            // the receiver sees the stream end early

  predicate SenderDone(s: State) {
    s.sender in {Served, SourceShort}
  }

  /** A re-grant is due once a quarter of the window has been read and more is to come. */
  predicate GrantDue(expected: nat, s: State, n: nat) {
    && s.creditOpen
    && SaturatingAdd(s.pending, n) >= TRANSFER_CREDIT_GRANT_BYTES
    && SaturatingAdd(|s.got|, n) < expected
  }

  /** Which steps may happen. Writing a credit fails only once the sender has stopped listening. */
  predicate Enabled(source: seq<Byte>, expected: nat, s: State, step: Step) {
    match step
    case GrantWindow => s.receiver == Starting
    case TakeCredit =>
      && s.credits != []
      && (s.sender == AwaitingCredit || (s.sender == Serving && s.sent < expected && s.available == 0))
    case SendChunk(n) =>
      && s.sender == Serving && s.sent < expected && s.available > 0
      && 0 < n <= Min(s.available, Min(TRANSFER_CHUNK_BYTES, SaturatingSub(expected, s.sent)))
      && s.sent + n <= |source|
    case SourceEnds => s.sender == Serving && s.sent < expected && s.available > 0 && s.sent >= |source|
    case FinishSending => s.sender == Serving && s.sent >= expected
    case Read(n, granted) =>
      && s.receiver == Receiving && 0 < n <= Min(|s.data|, TRANSFER_CHUNK_BYTES)
      && (granted || SenderDone(s))
    case FinishReceiving => s.receiver == Receiving && s.data == [] && s.sender == Served
    case Abort => s.receiver == Receiving && s.sender == SourceShort
  }

  function Do(source: seq<Byte>, expected: nat, s: State, step: Step): State
    requires Enabled(source, expected, s, step)
  {
    match step
    case GrantWindow => s.(receiver := Receiving, credits := s.credits + [TRANSFER_WINDOW_BYTES])
    case TakeCredit =>
      s.(sender := Serving, available := SaturatingAdd(s.available, s.credits[0]), credits := s.credits[1..])
    case SendChunk(n) =>
      s.(available := SaturatingSub(s.available, n), sent := SaturatingAdd(s.sent, n),
         data := s.data + source[s.sent..s.sent + n])
    case SourceEnds => s.(sender := SourceShort)
    case FinishSending => s.(sender := Served)
    case Read(n, granted) => AfterRead(expected, s, n, granted)
    case FinishReceiving => s.(receiver := if |s.got| == expected then Received else Failed)
    case Abort => s.(receiver := Failed)
  }

  function AfterRead(expected: nat, s: State, n: nat, granted: bool): State
    requires n <= |s.data|
  {
    var read := s.(got := s.got + s.data[..n], data := s.data[n..], pending := SaturatingAdd(s.pending, n));
    if !GrantDue(expected, s, n) then read
    else if granted then read.(credits := read.credits + [read.pending], pending := 0)
    else read.(creditOpen := false)
  }

  predicate Terminal(s: State) {
    s.receiver in {Received, Failed} && SenderDone(s)
  }

  // ----- the invariant -----

  /** Credit held, in flight and spent is what was granted: the window, and every byte read but not yet re-granted. */
  ghost predicate Conserved(s: State) {
    && s.pending <= |s.got|
    && s.available + Sum(s.credits) + s.sent
         == if s.receiver == Starting then 0 else TRANSFER_WINDOW_BYTES + |s.got| - s.pending
  }

  ghost predicate InOrder(source: seq<Byte>, expected: nat, s: State) {
    && s.sent <= expected && s.sent <= |source|
    && s.got + s.data == source[..s.sent]
  }

  ghost predicate Inv(source: seq<Byte>, expected: nat, s: State) {
    && InOrder(source, expected, s)
    && Conserved(s)
    && (s.creditOpen && |s.got| < expected ==> s.pending < TRANSFER_CREDIT_GRANT_BYTES)
    && (!s.creditOpen ==> SenderDone(s))
    && (s.receiver == Starting ==> s.sender == AwaitingCredit && s.credits == [])
    && (forall i | 0 <= i < |s.credits| :: s.credits[i] >= TRANSFER_CREDIT_GRANT_BYTES)
    && (s.sender == AwaitingCredit ==> s.available == 0 && s.sent == 0)
    && (s.sender == Served ==> s.sent == expected)
    && (s.sender == SourceShort ==> s.sent == |source| < expected)
    && (s.receiver == Received ==> s.sender == Served && |s.got| == expected)
    && (s.receiver == Failed ==> s.sender == SourceShort)
  }

  lemma InitialInv(source: seq<Byte>, expected: nat, s: State)
    requires Initial(s)
    ensures Inv(source, expected, s)
  {
  }

  lemma SentIsInOrder(got: seq<Byte>, data: seq<Byte>, source: seq<Byte>, sent: nat, n: nat)
    requires sent + n <= |source| && got + data == source[..sent]
    ensures got + (data + source[sent..sent + n]) == source[..sent + n]
  {
    assert source[..sent] + source[sent..sent + n] == source[..sent + n];
    assert got + (data + source[sent..sent + n]) == got + data + source[sent..sent + n];
  }

  lemma ReadIsInOrder(got: seq<Byte>, data: seq<Byte>, n: nat)
    requires n <= |data|
    ensures got + data[..n] + data[n..] == got + data
  {
  }

  lemma StepKeepsOrder(source: seq<Byte>, expected: nat, s: State, step: Step)
    requires InOrder(source, expected, s) && expected <= U64_MAX && Enabled(source, expected, s, step)
    ensures InOrder(source, expected, Do(source, expected, s, step))
  {
    match step
    case SendChunk(n) => SentIsInOrder(s.got, s.data, source, s.sent, n);
    case Read(n, granted) => ReadIsInOrder(s.got, s.data, n);
    case _ =>
  }

  lemma ReadKeepsCredit(source: seq<Byte>, expected: nat, s: State, n: nat, granted: bool)
    requires expected <= U64_MAX && InOrder(source, expected, s) && Conserved(s)
    requires s.receiver == Receiving && n <= |s.data|
    ensures Conserved(AfterRead(expected, s, n, granted))
  {
    assert |s.got| + |s.data| == s.sent;
    SumAppend(s.credits, s.pending + n);
  }

  lemma TakeCreditKeepsCredit(s: State)
    requires Conserved(s) && s.credits != []
    ensures SaturatingAdd(s.available, s.credits[0]) + Sum(s.credits[1..]) <= s.available + Sum(s.credits)
    ensures s.available + Sum(s.credits) <= U64_MAX ==>
              SaturatingAdd(s.available, s.credits[0]) + Sum(s.credits[1..]) == s.available + Sum(s.credits)
  {
  }

  lemma StepKeepsCredit(source: seq<Byte>, expected: nat, s: State, step: Step)
    requires expected <= U64_MAX && Inv(source, expected, s) && Enabled(source, expected, s, step)
    ensures Conserved(Do(source, expected, s, step))
  {
    assert |s.got| + |s.data| == s.sent;
    match step
    case GrantWindow => SumAppend(s.credits, TRANSFER_WINDOW_BYTES);
    case TakeCredit => TakeCreditKeepsCredit(s);
    case Read(n, granted) => ReadKeepsCredit(source, expected, s, n, granted);
    case _ =>
  }

  /** Every step of every schedule keeps the invariant; in particular no saturating operation ever saturates. */
  lemma StepKeepsInv(source: seq<Byte>, expected: nat, s: State, step: Step)
    requires expected <= U64_MAX && Inv(source, expected, s) && Enabled(source, expected, s, step)
    ensures Inv(source, expected, Do(source, expected, s, step))
  {
    StepKeepsOrder(source, expected, s, step);
    StepKeepsCredit(source, expected, s, step);
    assert |s.got| + |s.data| == s.sent;
  }

  /** The sender is never more than one window ahead of the receiver. */
  lemma WindowBound(source: seq<Byte>, expected: nat, s: State)
    requires Inv(source, expected, s)
    ensures s.sent - |s.got| <= TRANSFER_WINDOW_BYTES
    ensures s.available + Sum(s.credits) + |s.data| <= TRANSFER_WINDOW_BYTES
  {
    assert |s.got| + |s.data| == s.sent;
  }

  // ----- progress and termination -----

  /** Short of the end, one of the two loops can always take its next turn. */
  lemma SomebodyCanMove(source: seq<Byte>, expected: nat, s: State)
    requires Inv(source, expected, s) && !Terminal(s)
    ensures
      || s.receiver == Starting
      || (s.sender == AwaitingCredit && s.credits != [])
      || (s.sender == Serving && s.sent < expected && s.available == 0 && s.credits != [])
      || (s.sender == Serving && s.sent < expected && s.available > 0)
      || (s.sender == Serving && s.sent >= expected)
      || (s.receiver == Receiving && s.data != [])
      || (s.receiver == Receiving && s.data == [] && s.sender == Served)
      || (s.receiver == Receiving && s.sender == SourceShort)
  {
    assert |s.got| + |s.data| == s.sent;
  }

  lemma NoDeadlock(source: seq<Byte>, expected: nat, s: State)
    requires Inv(source, expected, s) && !Terminal(s)
    ensures exists step :: Enabled(source, expected, s, step)
  {
    SomebodyCanMove(source, expected, s);
    var step :=
      if s.receiver == Starting then GrantWindow
      else if s.receiver == Receiving && s.data != [] then Read(1, true)
      else if s.sender == AwaitingCredit then TakeCredit
      else if s.sender == Serving then
        if s.sent == expected then FinishSending
        else if s.available == 0 then TakeCredit
        else if s.sent < |source| then SendChunk(1)
        else SourceEnds
      else if s.sender == Served then FinishReceiving
      else Abort;
    assert Enabled(source, expected, s, step);
  }

  /** Bytes left to send and to receive, credit messages in flight, and phases left to go through. */
  function Remaining(expected: nat, s: State): nat {
    SaturatingSub(expected, s.sent) + 2 * SaturatingSub(expected, |s.got|) + |s.credits|
      + (match s.sender case AwaitingCredit => 2 case Serving => 1 case _ => 0)
      + (match s.receiver case Starting => 3 case Receiving => 1 case _ => 0)
  }

  lemma StepMakesProgress(source: seq<Byte>, expected: nat, s: State, step: Step)
    requires expected <= U64_MAX && Inv(source, expected, s) && Enabled(source, expected, s, step)
    ensures Remaining(expected, Do(source, expected, s, step)) < Remaining(expected, s)
  {
    assert |s.got| + |s.data| == s.sent;
  }

  /** How a transfer that has stopped ended: complete and right if the source was long enough, failed otherwise. */
  lemma TerminalOutcome(source: seq<Byte>, expected: nat, s: State)
    requires Inv(source, expected, s) && Terminal(s)
    ensures s.receiver == Received <==> expected <= |source|
    ensures s.receiver == Received ==> s.got == source[..expected]
  {
    if s.receiver == Received {
      assert |s.got| + |s.data| == s.sent;
      assert s.got + s.data == s.got;
    }
  }

  // ----- whole runs -----

  ghost predicate IsRun(source: seq<Byte>, expected: nat, from: State, steps: seq<Step>, to: State)
    decreases steps
  {
    if steps == [] then from == to
    else
      && Enabled(source, expected, from, steps[0])
      && IsRun(source, expected, Do(source, expected, from, steps[0]), steps[1..], to)
  }

  lemma {:induction false} RunFacts(source: seq<Byte>, expected: nat, from: State, steps: seq<Step>, to: State)
    requires expected <= U64_MAX && Inv(source, expected, from) && IsRun(source, expected, from, steps, to)
    ensures Inv(source, expected, to)
    ensures |steps| + Remaining(expected, to) <= Remaining(expected, from)
    decreases steps
  {
    if steps != [] {
      StepKeepsInv(source, expected, from, steps[0]);
      StepMakesProgress(source, expected, from, steps[0]);
      RunFacts(source, expected, Do(source, expected, from, steps[0]), steps[1..], to);
    }
  }

  /** The sizes of the receiver's reads, in order. */
  function ReadSizes(steps: seq<Step>): seq<nat> {
    if steps == [] then []
    else if steps[0].Read? then [steps[0].n] + ReadSizes(steps[1..])
    else ReadSizes(steps[1..])
  }

  /** What the receiver reports as it reads is what it has read. */
  lemma {:induction false} ReportedIsRead(source: seq<Byte>, expected: nat, from: State, steps: seq<Step>, to: State)
    requires IsRun(source, expected, from, steps, to)
    ensures |from.got| + Sum(ReadSizes(steps)) == |to.got|
    decreases steps
  {
    if steps != [] {
      var next := Do(source, expected, from, steps[0]);
      ReportedIsRead(source, expected, next, steps[1..], to);
      assert |next.got| == |from.got| + (if steps[0].Read? then steps[0].n else 0);
      assert steps[0].Read? ==> ReadSizes(steps)[1..] == ReadSizes(steps[1..]);
    }
  }

  ghost predicate Stuck(source: seq<Byte>, expected: nat, s: State) {
    forall step :: !Enabled(source, expected, s, step)
  }

  lemma StuckIsTerminal(source: seq<Byte>, expected: nat, s: State)
    requires Inv(source, expected, s) && Stuck(source, expected, s)
    ensures Terminal(s)
  {
    if !Terminal(s) {
      NoDeadlock(source, expected, s);
    }
  }

  lemma WhereItStops(source: seq<Byte>, expected: nat, s: State)
    requires Inv(source, expected, s)
    ensures s.sent - |s.got| <= TRANSFER_WINDOW_BYTES
    ensures Stuck(source, expected, s) ==> Terminal(s)
    ensures Terminal(s) ==> (s.receiver == Received <==> expected <= |source|)
    ensures s.receiver == Received ==> expected <= |source| && s.got == source[..expected]
  {
    WindowBound(source, expected, s);
    if Stuck(source, expected, s) {
      StuckIsTerminal(source, expected, s);
    }
    if Terminal(s) {
      TerminalOutcome(source, expected, s);
    }
  }

  /**
    A read makes a grant exactly when it is worth one and of use: a quarter of the window has come since the last, more
    of the file is to come, and the sender has not stopped listening. It grants all that has come since.
  */
  lemma WhenAReadGrants(source: seq<Byte>, expected: nat, s: State, n: nat, granted: bool)
    requires expected <= U64_MAX && Inv(source, expected, s) && Enabled(source, expected, s, Read(n, granted))
    ensures var after := Do(source, expected, s, Read(n, granted));
            var due := s.creditOpen && s.pending + n >= TRANSFER_CREDIT_GRANT_BYTES && |s.got| + n < expected;
            && after.credits == s.credits + (if due && granted then [s.pending + n] else [])
            && after.pending == (if due && granted then 0 else s.pending + n)
            && (after.creditOpen <==> s.creditOpen && (due ==> granted))
            && after.got == s.got + s.data[..n]
  {
    assert |s.got| + |s.data| == s.sent;
  }

  /**
    Every schedule ends: it has a bounded number of steps, it can only stop when both sides are done, and then the
    receiver holds exactly the first `expected` bytes of the source, or has failed because the source was shorter. No
    grant is for less than a quarter of the window.
  */
  lemma {:induction false} EveryScheduleDelivers(source: seq<Byte>, expected: nat, start: State, steps: seq<Step>,
                                                 end: State)
    requires expected <= U64_MAX && Initial(start) && IsRun(source, expected, start, steps, end)
    ensures |steps| <= 3 * expected + 5
    ensures Conserved(end)
    ensures end.creditOpen && |end.got| < expected ==> end.pending < TRANSFER_CREDIT_GRANT_BYTES
    ensures forall i | 0 <= i < |end.credits| :: end.credits[i] >= TRANSFER_CREDIT_GRANT_BYTES
    ensures end.sent - |end.got| <= TRANSFER_WINDOW_BYTES
    ensures Stuck(source, expected, end) ==> Terminal(end)
    ensures Stuck(source, expected, end) ==> (end.receiver == Received <==> expected <= |source|)
    ensures end.receiver == Received ==> expected <= |source| && end.got == source[..expected]
  {
    InitialInv(source, expected, start);
    RunFacts(source, expected, start, steps, end);
    WhereItStops(source, expected, end);
  }

  // ----- the two loops, run against each other -----

  /** The variables of the sending loop, of the receiving loop, and what is on the wire between them. */
  class Connection {
    const source: seq<Byte>
    const expected: nat

    var sender: Sender
    var availableCredit: nat
    var bytesSent: nat

    var stream: seq<Byte>
    var creditStream: seq<nat>

    var receiver: Receiver
    var file: seq<Byte>
    var creditPending: nat
    var creditStreamOpen: bool

    ghost function View(): State
      reads this
    {
      State(sender, availableCredit, bytesSent, stream, creditStream, receiver, file, creditPending, creditStreamOpen)
    }

    constructor (source: seq<Byte>, expected: nat)
      ensures this.source == source && this.expected == expected && Initial(View())
    {
      this.source, this.expected := source, expected;
      sender, availableCredit, bytesSent := AwaitingCredit, 0, 0;
      stream, creditStream := [], [];
      receiver, file, creditPending, creditStreamOpen := Starting, [], 0, true;
    }

    method WriteCredit(bytes: nat)
      modifies this`creditStream
      ensures creditStream == if bytes == 0 then old(creditStream) else old(creditStream) + [bytes]
    {
      if bytes != 0 {
        creditStream := creditStream + [bytes];
      }
    }

    method GrantWindow()
      requires Enabled(source, expected, View(), Step.GrantWindow)
      modifies this
      ensures View() == Do(source, expected, old(View()), Step.GrantWindow)
    {
      WriteCredit(TRANSFER_WINDOW_BYTES);
      receiver := Receiving;
    }

    method ReadCredit()
      requires Enabled(source, expected, View(), TakeCredit)
      modifies this
      ensures View() == Do(source, expected, old(View()), TakeCredit)
    {
      availableCredit := SaturatingAdd(availableCredit, creditStream[0]);
      creditStream := creditStream[1..];
      sender := Serving;
    }

    /** One turn of the sending loop with credit in hand; the file may yield fewer bytes than asked for. */
    method ServeChunk(ask: nat) returns (ghost step: Step)
      requires sender == Serving && bytesSent < expected && availableCredit > 0
      modifies this
      ensures Enabled(source, expected, old(View()), step)
      ensures View() == Do(source, expected, old(View()), step)
    {
      var chunkLen := Min(availableCredit, Min(TRANSFER_CHUNK_BYTES, SaturatingSub(expected, bytesSent)));
      var read := Min(SaturatingSub(|source|, bytesSent), if 0 < ask <= chunkLen then ask else chunkLen);
      if read == 0 {
        sender := SourceShort;
        return SourceEnds;
      }
      step := SendChunk(read);
      stream := stream + source[bytesSent..bytesSent + read];
      availableCredit := SaturatingSub(availableCredit, read);
      bytesSent := SaturatingAdd(bytesSent, read);
    }

    /** Grants what has been read since the last grant, once it is a quarter window and the file is incomplete. */
    method Regrant(bytesComplete: nat, granted: bool)
      modifies this`creditStream, this`creditPending, this`creditStreamOpen
      ensures var due := old(creditStreamOpen) && old(creditPending) >= TRANSFER_CREDIT_GRANT_BYTES
                         && bytesComplete < expected;
              && creditStream == old(creditStream) + (if due && granted then [old(creditPending)] else [])
              && creditPending == (if due && granted then 0 else old(creditPending))
              && creditStreamOpen == (old(creditStreamOpen) && (due ==> granted))
    {
      if creditStreamOpen && creditPending >= TRANSFER_CREDIT_GRANT_BYTES && bytesComplete < expected {
        if granted {
          WriteCredit(creditPending);
          creditPending := 0;
        } else {
          creditStreamOpen := false;
        }
      }
    }

    /** One turn of the receiving loop; a read may yield any part of what has arrived. */
    method ReceiveChunk(ask: nat, granted: bool) returns (read: nat)
      requires receiver == Receiving && stream != [] && (granted || SenderDone(View()))
      modifies this
      ensures Enabled(source, expected, old(View()), Read(read, granted))
      ensures View() == AfterRead(expected, old(View()), read, granted)
    {
      var before := |file|;
      read := TakeBytes(ask);
      Regrant(SaturatingAdd(before, read), granted);
    }

    /** The stream yields some of what it has, at most a buffer full. */
    method TakeBytes(ask: nat) returns (read: nat)
      requires stream != []
      modifies this`file, this`stream, this`creditPending
      ensures 0 < read <= Min(|old(stream)|, TRANSFER_CHUNK_BYTES)
      ensures file == old(file) + old(stream)[..read] && stream == old(stream)[read..]
      ensures creditPending == SaturatingAdd(old(creditPending), read)
    {
      var most := Min(|stream|, TRANSFER_CHUNK_BYTES);
      read := if 0 < ask <= most then ask else most;
      file, stream := file + stream[..read], stream[read..];
      creditPending := SaturatingAdd(creditPending, read);
    }

    /** One turn of either loop, whichever the schedule picks among those that need not wait. */
    method Turn() returns (ghost step: Step)
      requires Inv(source, expected, View()) && !Terminal(View())
      modifies this
      ensures Enabled(source, expected, old(View()), step)
      ensures View() == Do(source, expected, old(View()), step)
    {
      SomebodyCanMove(source, expected, View());
      if {
        case receiver == Starting =>
          step := Step.GrantWindow;
          GrantWindow();
        case creditStream != []
             && (sender == AwaitingCredit || (sender == Serving && bytesSent < expected && availableCredit == 0)) =>
          step := TakeCredit;
          ReadCredit();
        case sender == Serving && bytesSent < expected && availableCredit > 0 =>
          var ask: nat := *;
          step := ServeChunk(ask);
        case sender == Serving && bytesSent >= expected =>
          step := FinishSending;
          sender := Served;
        case receiver == Receiving && stream != [] =>
          var ask: nat, lost: bool := *, *;
          var granted := !lost || sender in {AwaitingCredit, Serving};
          var read := ReceiveChunk(ask, granted);
          step := Read(read, granted);
        case receiver == Receiving && stream == [] && sender == Served =>
          step := FinishReceiving;
          receiver := if |file| == expected then Received else Failed;
        case receiver == Receiving && sender == SourceShort =>
          step := Abort;
          receiver := Failed;
      }
    }

    /**
      Both loops to the end, interleaved in any way and with reads of any size. The loop stops because bytes and
      messages run out; no schedule leaves both sides waiting for each other.
    */
    method Run() returns (ok: bool)
      requires Initial(View()) && expected <= U64_MAX
      modifies this
      ensures ok <==> expected <= |source|
      ensures ok ==> file == source[..expected]
    {
      InitialInv(source, expected, View());
      while !(receiver in {Received, Failed} && sender in {Served, SourceShort})
        invariant Inv(source, expected, View())
        decreases Remaining(expected, View())
      {
        ghost var s := View();
        ghost var step := Turn();
        StepKeepsInv(source, expected, s, step);
        StepMakesProgress(source, expected, s, step);
      }
      TerminalOutcome(source, expected, View());
      ok := receiver == Received;
    }
  }
}
