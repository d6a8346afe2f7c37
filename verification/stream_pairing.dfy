/**
  Directory entries are fetched by concurrent workers over one connection. Each opens a request stream and a credit
  stream and writes its request, all under one lock; the server accepts streams in the order they were opened
  (section 3.2 of RFC 9000) and takes the stream after a request for the credit stream of that request.
*/
module StreamPairing {
  import opened Wrappers

  /** Where a worker is in its opening section. */
  datatype Worker = Idle | Locked | RequestOpen | BothOpen | RequestSent | Released

  /** A stream, by the worker that opened it; a request stream carries its request once that has been written. */
  datatype Stream = Request(owner: nat, written: bool) | Credit(owner: nat)

  datatype Server = AcceptRequest | ReadRequest | AcceptCredit(entry: nat)

  /** The server serves an entry with the credit read from a stream. */
  datatype Pairing = Pairing(entry: nat, credit: Stream)

  /** `order` records which workers have opened their request stream, in that order. */
  datatype State = State(
    workers: seq<Worker>, lock: Option<nat>, order: seq<nat>, streams: seq<Stream>,
    server: Server, accepted: nat, served: seq<Pairing>)

  datatype Step =
    | Acquire(w: nat) | OpenRequest(w: nat) | OpenCredit(w: nat) | WriteRequest(w: nat) | Release(w: nat)
    | ServerAcceptsRequest | ServerReads | ServerAcceptsCredit

  predicate Initial(s: State) {
    && (forall w | 0 <= w < |s.workers| :: s.workers[w] == Idle)
    && s.lock == None && s.order == [] && s.streams == []
    && s.server == AcceptRequest && s.accepted == 0 && s.served == []
  }

  /** The server expects one request for each of the workers' entries. */
  predicate Enabled(s: State, step: Step) {
    match step
    case Acquire(w) => w < |s.workers| && s.workers[w] == Idle && s.lock == None
    case OpenRequest(w) => w < |s.workers| && s.workers[w] == Locked
    case OpenCredit(w) => w < |s.workers| && s.workers[w] == RequestOpen
    case WriteRequest(w) => w < |s.workers| && s.workers[w] == BothOpen
    case Release(w) => w < |s.workers| && s.workers[w] == RequestSent
    case ServerAcceptsRequest =>
      s.server == AcceptRequest && |s.served| < |s.workers| && s.accepted < |s.streams|
    case ServerReads =>
      && s.server == ReadRequest && 0 < s.accepted <= |s.streams|
      && s.streams[s.accepted - 1].Request? && s.streams[s.accepted - 1].written
    case ServerAcceptsCredit => s.server.AcceptCredit? && s.accepted < |s.streams|
  }

  function Do(s: State, step: Step): State
    requires Enabled(s, step)
  {
    match step
    case Acquire(w) => s.(workers := s.workers[w := Locked], lock := Some(w))
    case OpenRequest(w) =>
      s.(workers := s.workers[w := RequestOpen], order := s.order + [w], streams := s.streams + [Request(w, false)])
    case OpenCredit(w) => s.(workers := s.workers[w := BothOpen], streams := s.streams + [Credit(w)])
    case WriteRequest(w) => s.(workers := s.workers[w := RequestSent], streams := WithRequest(s.streams, w))
    case Release(w) => s.(workers := s.workers[w := Released], lock := None)
    case ServerAcceptsRequest => s.(server := ReadRequest, accepted := s.accepted + 1)
    case ServerReads => s.(server := AcceptCredit(s.streams[s.accepted - 1].owner))
    case ServerAcceptsCredit =>
      s.(server := AcceptRequest, accepted := s.accepted + 1,
         served := s.served + [Pairing(s.server.entry, s.streams[s.accepted])])
  }

  /** Writing reaches the worker's own request stream, wherever that is. */
  function WithRequest(streams: seq<Stream>, w: nat): (r: seq<Stream>)
    ensures |r| == |streams|
    ensures forall i | 0 <= i < |r| :: r[i] == if streams[i] == Request(w, false) then Request(w, true) else streams[i]
  {
    seq(|streams|, i requires 0 <= i < |streams| =>
      if streams[i] == Request(w, false) then Request(w, true) else streams[i])
  }

  // ----- the invariant -----

  predicate HoldsLock(w: Worker) {
    w in {Locked, RequestOpen, BothOpen, RequestSent}
  }

  predicate HasOpened(w: Worker) {
    w in {RequestOpen, BothOpen, RequestSent, Released}
  }

  /** The workers' sections do not overlap: all but the last to open have finished, and the last holds the lock. */
  ghost predicate Sections(s: State) {
    && (forall i | 0 <= i < |s.order| :: s.order[i] < |s.workers| && HasOpened(s.workers[s.order[i]]))
    && (forall i, j | 0 <= i < j < |s.order| :: s.order[i] != s.order[j])
    && (forall i | 0 <= i < |s.order| - 1 :: s.workers[s.order[i]] == Released)
    && (forall w | 0 <= w < |s.workers| && HasOpened(s.workers[w]) :: w in s.order)
    && (forall w | 0 <= w < |s.workers| :: HoldsLock(s.workers[w]) <==> s.lock == Some(w))
    && (s.lock.Some? ==> s.lock.value < |s.workers|)
    && (s.lock.Some? && HasOpened(s.workers[s.lock.value]) ==>
          s.order != [] && s.order[|s.order| - 1] == s.lock.value)
  }

  /** The stream at position j: requests at even positions, each followed by its own worker's credit stream. */
  ghost function StreamAt(s: State, j: nat): Stream
    requires Sections(s) && j < 2 * |s.order|
  {
    var w := s.order[j / 2];
    if j % 2 == 0 then Request(w, s.workers[w] in {RequestSent, Released}) else Credit(w)
  }

  ghost predicate HalfOpen(s: State) {
    s.lock.Some? && s.lock.value < |s.workers| && s.workers[s.lock.value] == RequestOpen
  }

  ghost predicate Paired(s: State)
    requires Sections(s)
  {
    && |s.streams| == 2 * |s.order| - (if HalfOpen(s) then 1 else 0)
    && forall j | 0 <= j < |s.streams| :: s.streams[j] == StreamAt(s, j)
  }

  ghost predicate ServerInOrder(s: State) {
    && s.accepted <= |s.streams|
    && |s.served| <= |s.order|
    && s.accepted == 2 * |s.served| + (if s.server == AcceptRequest then 0 else 1)
    && (s.server.AcceptCredit? ==> |s.served| < |s.order| && s.server.entry == s.order[|s.served|])
    && (forall i | 0 <= i < |s.served| :: s.served[i] == Pairing(s.order[i], Credit(s.order[i])))
  }

  ghost predicate Inv(s: State) {
    Sections(s) && Paired(s) && ServerInOrder(s)
  }

  lemma AcquireKeepsSections(s: State, w: nat)
    requires Sections(s) && Enabled(s, Acquire(w))
    ensures Sections(Do(s, Acquire(w)))
  {
  }

  lemma OpenRequestKeepsSections(s: State, w: nat)
    requires Sections(s) && Enabled(s, OpenRequest(w))
    ensures Sections(Do(s, OpenRequest(w)))
  {
    assert w !in s.order;
  }

  /** The holder of the lock goes on to what it does after opening its request stream. */
  lemma HolderKeepsSections(s: State, w: nat, step: Step)
    requires Sections(s) && Enabled(s, step) && step in {OpenCredit(w), WriteRequest(w)}
    ensures Sections(Do(s, step))
  {
  }

  lemma ReleaseKeepsSections(s: State, w: nat)
    requires Sections(s) && Enabled(s, Release(w))
    ensures Sections(Do(s, Release(w)))
  {
  }

  lemma {:induction false} StepKeepsSections(s: State, step: Step)
    requires Sections(s) && Enabled(s, step)
    ensures Sections(Do(s, step))
  {
    match step
    case Acquire(w) => AcquireKeepsSections(s, w);
    case OpenRequest(w) => OpenRequestKeepsSections(s, w);
    case OpenCredit(w) => HolderKeepsSections(s, w, step);
    case WriteRequest(w) => HolderKeepsSections(s, w, step);
    case Release(w) => ReleaseKeepsSections(s, w);
    case _ =>
  }

  lemma OpenKeepsPaired(s: State, step: Step)
    requires Inv(s) && Enabled(s, step) && (step.OpenRequest? || step.OpenCredit?) && Sections(Do(s, step))
    ensures Paired(Do(s, step))
  {
  }

  lemma WriteKeepsPaired(s: State, w: nat)
    requires Inv(s) && Enabled(s, WriteRequest(w)) && Sections(Do(s, WriteRequest(w)))
    ensures Paired(Do(s, WriteRequest(w)))
  {
    var after := Do(s, WriteRequest(w));
    forall j | 0 <= j < |after.streams| ensures after.streams[j] == StreamAt(after, j) {
      assert s.streams[j] == StreamAt(s, j);
    }
  }

  lemma OtherKeepsPaired(s: State, step: Step)
    requires Inv(s) && Enabled(s, step) && Sections(Do(s, step))
    requires !step.OpenRequest? && !step.OpenCredit? && !step.WriteRequest?
    ensures Paired(Do(s, step))
  {
    var after := Do(s, step);
    forall j | 0 <= j < |after.streams| ensures after.streams[j] == StreamAt(after, j) {
      assert s.streams[j] == StreamAt(s, j);
    }
  }

  lemma {:induction false} StepKeepsPaired(s: State, step: Step)
    requires Inv(s) && Enabled(s, step) && Sections(Do(s, step))
    ensures Paired(Do(s, step))
  {
    match step
    case OpenRequest(_) => OpenKeepsPaired(s, step);
    case OpenCredit(_) => OpenKeepsPaired(s, step);
    case WriteRequest(w) => WriteKeepsPaired(s, w);
    case _ => OtherKeepsPaired(s, step);
  }

  lemma StepKeepsServer(s: State, step: Step)
    requires Inv(s) && Enabled(s, step)
    ensures ServerInOrder(Do(s, step))
  {
    if step.ServerReads? || step.ServerAcceptsCredit? {
      var j: nat := if step.ServerReads? then s.accepted - 1 else s.accepted;
      assert s.streams[j] == StreamAt(s, j);
    }
  }

  lemma {:induction false} StepKeepsInv(s: State, step: Step)
    requires Inv(s) && Enabled(s, step)
    ensures Inv(Do(s, step))
  {
    StepKeepsSections(s, step);
    StepKeepsPaired(s, step);
    StepKeepsServer(s, step);
  }

  // ----- progress -----

  function Turns(workers: seq<Worker>): nat {
    if workers == [] then 0
    else Turns(workers[1..]) + match workers[0]
      case Idle => 5
      case Locked => 4
      case RequestOpen => 3
      case BothOpen => 2
      case RequestSent => 1
      case Released => 0
  }

  function Rank(w: Worker): nat {
    Turns([w])
  }

  lemma {:induction false} TurnsUpdate(workers: seq<Worker>, i: nat, w: Worker)
    requires i < |workers|
    ensures Turns(workers[i := w]) + Rank(workers[i]) == Turns(workers) + Rank(w)
  {
    if i > 0 {
      assert workers[i := w][1..] == workers[1..][i - 1 := w];
      TurnsUpdate(workers[1..], i - 1, w);
    } else {
      assert workers[0 := w][1..] == workers[1..];
    }
  }

  lemma {:induction false} TurnsBound(workers: seq<Worker>)
    ensures Turns(workers) <= 5 * |workers|
  {
    if workers != [] {
      TurnsBound(workers[1..]);
    }
  }

  function Remaining(s: State): int {
    Turns(s.workers) + 3 * (|s.workers| - |s.served|)
      - (match s.server case AcceptRequest => 0 case ReadRequest => 1 case AcceptCredit(_) => 2)
  }

  ghost predicate Distinct(order: seq<nat>) {
    forall i, j | 0 <= i < j < |order| :: order[i] != order[j]
  }

  function UpTo(n: nat): (r: set<nat>)
    ensures |r| == n
    ensures forall w: nat :: w in r <==> w < n
  {
    if n == 0 then {} else UpTo(n - 1) + {n - 1}
  }

  function Members(order: seq<nat>): set<nat> {
    set x | x in order
  }

  lemma {:induction false} MembersCardinality(order: seq<nat>)
    requires Distinct(order)
    ensures |Members(order)| == |order|
  {
    if order != [] {
      var n := |order| - 1;
      assert order == order[..n] + [order[n]];
      MembersCardinality(order[..n]);
      assert Members(order) == Members(order[..n]) + {order[n]};
    }
  }

  lemma CardinalityIsMonotone(small: set<nat>, large: set<nat>)
    requires small <= large
    ensures |small| <= |large|
  {
    assert |large - small| == |large| - |small|;
  }

  lemma DistinctBounded(order: seq<nat>, n: nat)
    requires forall i | 0 <= i < |order| :: order[i] < n
    requires Distinct(order)
    ensures |order| <= n
  {
    MembersCardinality(order);
    CardinalityIsMonotone(Members(order), UpTo(n));
  }

  lemma CoveringLength(order: seq<nat>, n: nat)
    requires forall w | 0 <= w < n :: w in order
    requires Distinct(order)
    ensures n <= |order|
  {
    MembersCardinality(order);
    CardinalityIsMonotone(UpTo(n), Members(order));
  }

  lemma TurnMakesProgress(workers: seq<Worker>, w: nat, next: Worker)
    requires w < |workers| && Rank(next) < Rank(workers[w])
    ensures Turns(workers[w := next]) < Turns(workers)
  {
    TurnsUpdate(workers, w, next);
  }

  lemma RemainingIsNatural(s: State)
    requires Inv(s)
    ensures 0 <= Remaining(s)
  {
    DistinctBounded(s.order, |s.workers|);
  }

  lemma StepMakesProgress(s: State, step: Step)
    requires Inv(s) && Enabled(s, step)
    ensures Remaining(Do(s, step)) < Remaining(s)
  {
    match step
    case Acquire(w) => TurnMakesProgress(s.workers, w, Locked);
    case OpenRequest(w) => TurnMakesProgress(s.workers, w, RequestOpen);
    case OpenCredit(w) => TurnMakesProgress(s.workers, w, BothOpen);
    case WriteRequest(w) => TurnMakesProgress(s.workers, w, RequestSent);
    case Release(w) => TurnMakesProgress(s.workers, w, Released);
    case _ =>
  }

  ghost predicate Stuck(s: State) {
    forall step :: !Enabled(s, step)
  }

  /** While an entry is still to be served, a worker or the server can go on. */
  lemma NoDeadlock(s: State)
    requires Inv(s) && |s.served| < |s.workers|
    ensures !Stuck(s)
  {
    if s.lock.Some? {
      var w := s.lock.value;
      var step := match s.workers[w]
        case Locked => OpenRequest(w)
        case RequestOpen => OpenCredit(w)
        case BothOpen => WriteRequest(w)
        case _ => Release(w);
      assert Enabled(s, step);
    } else if exists w :: 0 <= w < |s.workers| && s.workers[w] == Idle {
      var w :| 0 <= w < |s.workers| && s.workers[w] == Idle;
      assert Enabled(s, Acquire(w));
    } else {
      forall w | 0 <= w < |s.workers| ensures w in s.order {
        assert !HoldsLock(s.workers[w]);
      }
      CoveringLength(s.order, |s.workers|);
      var step := match s.server
        case AcceptRequest => ServerAcceptsRequest
        case ReadRequest => ServerReads
        case AcceptCredit(_) => ServerAcceptsCredit;
      if s.server == ReadRequest {
        assert s.streams[s.accepted - 1] == StreamAt(s, s.accepted - 1);
        assert !HoldsLock(s.workers[s.order[|s.served|]]);
      }
      assert Enabled(s, step);
    }
  }

  // ----- whole runs -----

  ghost predicate IsRun(from: State, steps: seq<Step>, to: State)
    decreases steps
  {
    if steps == [] then from == to
    else Enabled(from, steps[0]) && IsRun(Do(from, steps[0]), steps[1..], to)
  }

  lemma {:induction false} RunFacts(from: State, steps: seq<Step>, to: State)
    requires Inv(from) && IsRun(from, steps, to) && 0 <= Remaining(from)
    ensures Inv(to) && |to.workers| == |from.workers|
    ensures 0 <= Remaining(to) && |steps| + Remaining(to) <= Remaining(from)
    decreases steps
  {
    if steps != [] {
      StepKeepsInv(from, steps[0]);
      StepMakesProgress(from, steps[0]);
      RemainingIsNatural(Do(from, steps[0]));
      RunFacts(Do(from, steps[0]), steps[1..], to);
    }
  }

  /**
    Under every interleaving of the workers and the server: an entry is only ever served with the credit stream that
    its own worker opened, no entry is served twice, and when nothing more can happen every entry has been served.
  */
  lemma EveryEntryGetsItsOwnCredit(start: State, steps: seq<Step>, end: State)
    requires Initial(start) && IsRun(start, steps, end)
    ensures |steps| <= 8 * |start.workers|
    ensures forall i | 0 <= i < |end.served| :: end.served[i].credit == Credit(end.served[i].entry)
    ensures forall i, j | 0 <= i < j < |end.served| :: end.served[i].entry != end.served[j].entry
    ensures Stuck(end) ==> forall w | 0 <= w < |start.workers| :: Pairing(w, Credit(w)) in end.served
  {
    TurnsBound(start.workers);
    RunFacts(start, steps, end);
    if Stuck(end) {
      if |end.served| < |end.workers| { NoDeadlock(end); }
      DistinctBounded(end.order, |end.workers|);
      forall w | 0 <= w < |end.workers| ensures Pairing(w, Credit(w)) in end.served {
        EverybodyIsIn(end.order, |end.workers|, w);
        var i :| 0 <= i < |end.order| && end.order[i] == w;
        assert end.served[i] == Pairing(w, Credit(w));
      }
    }
  }

  /** As many distinct numbers below n as there are: all of them. */
  lemma {:induction false} EverybodyIsIn(order: seq<nat>, n: nat, w: nat)
    requires w < n && |order| >= n
    requires forall i | 0 <= i < |order| :: order[i] < n
    requires Distinct(order)
    ensures w in order
  {
    if w !in order {
      DistinctBounded(order + [w], n);
    }
  }
}
