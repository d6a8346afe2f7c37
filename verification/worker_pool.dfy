/**
  The receiver's pool of tasks, each fetching one file entry. Tasks report progress over one channel and are joined in
  whatever order they finish; each task that is joined makes room for the next entry.
*/
module WorkerPool {
  import opened Bytes
  import opened DirectoryEntries
  import CreditTransfer

  /** What a task will do: the byte counts it reports, and whether it succeeds in the end. */
  datatype Task = Task(deltas: seq<nat>, ok: bool)

  datatype Status = Waiting | Running | Finished | Joined

  /** An entry's place in the pool, with the reports its task has still to make. */
  datatype Job = Job(status: Status, left: seq<nat>, ok: bool)

  datatype Phase = Filling | Selecting | Flushing | Done | Failed

  /** `requests` records the entries that a task has been spawned for, in that order. */
  datatype State = State(
    phase: Phase, next: nat, inFlight: nat, jobs: seq<Job>, progress: seq<nat>, total: nat, requests: seq<nat>)

  datatype Step =
    | Spawn | EndFilling | Report(i: nat) | Finish(i: nat) | TakeProgress | Join(i: nat) | EndSelecting
    | FlushProgress | Complete

  function Jobs(tasks: seq<Task>): (r: seq<Job>)
    ensures |r| == |tasks|
  {
    seq(|tasks|, i requires 0 <= i < |tasks| => Job(Waiting, tasks[i].deltas, tasks[i].ok))
  }

  predicate Initial(tasks: seq<Task>, s: State) {
    s == State(Filling, 0, 0, Jobs(tasks), [], 0, [])
  }

  function Limit(workers: nat): nat {
    if workers == 0 then 1 else workers
  }

  predicate TasksRun(phase: Phase) {
    phase in {Filling, Selecting}
  }

  /** A task that is going to fail may stop before it has made all its reports. */
  predicate Enabled(workers: nat, s: State, step: Step) {
    match step
    case Spawn => s.phase == Filling && s.next < |s.jobs| && s.inFlight < Limit(workers)
    case EndFilling => s.phase == Filling && !(s.next < |s.jobs| && s.inFlight < Limit(workers))
    case Report(i) => TasksRun(s.phase) && i < |s.jobs| && s.jobs[i].status == Running && s.jobs[i].left != []
    case Finish(i) =>
      TasksRun(s.phase) && i < |s.jobs| && s.jobs[i].status == Running && (s.jobs[i].ok ==> s.jobs[i].left == [])
    case TakeProgress => s.phase == Selecting && s.inFlight > 0 && s.progress != []
    case Join(i) => s.phase == Selecting && s.inFlight > 0 && i < |s.jobs| && s.jobs[i].status == Finished
    case EndSelecting => s.phase == Selecting && s.inFlight == 0
    case FlushProgress => s.phase == Flushing && s.progress != []
    case Complete => s.phase == Flushing && s.progress == []
  }

  function WithStatus(jobs: seq<Job>, i: nat, status: Status): seq<Job>
    requires i < |jobs|
  {
    jobs[i := jobs[i].(status := status)]
  }

  function SpawnNext(s: State): State
    requires s.next < |s.jobs|
  {
    s.(next := s.next + 1, inFlight := s.inFlight + 1, jobs := WithStatus(s.jobs, s.next, Running),
       requests := s.requests + [s.next])
  }

  function Counted(s: State): State
    requires s.progress != []
  {
    s.(total := SaturatingAdd(s.total, s.progress[0]), progress := s.progress[1..])
  }

  function Joining(s: State, i: nat): State
    requires i < |s.jobs|
  {
    var joined := s.(inFlight := SaturatingSub(s.inFlight, 1), jobs := WithStatus(s.jobs, i, Joined));
    if !s.jobs[i].ok then joined.(phase := Failed)
    else if joined.next < |joined.jobs| then SpawnNext(joined)
    else joined
  }

  function Do(workers: nat, s: State, step: Step): State
    requires Enabled(workers, s, step)
  {
    match step
    case Spawn => SpawnNext(s)
    case EndFilling => s.(phase := Selecting)
    case Report(i) =>
      s.(jobs := s.jobs[i := s.jobs[i].(left := s.jobs[i].left[1..])], progress := s.progress + [s.jobs[i].left[0]])
    case Finish(i) => s.(jobs := WithStatus(s.jobs, i, Finished))
    case TakeProgress => Counted(s)
    case Join(i) => Joining(s, i)
    case EndSelecting => s.(phase := Flushing)
    case FlushProgress => Counted(s)
    case Complete => s.(phase := Done)
  }

  // ----- totals over the jobs -----

  function Busy(job: Job): nat {
    if job.status in {Running, Finished} then 1 else 0
  }

  function Unreported(job: Job): nat {
    Sum(job.left)
  }

  /** How far a job is from its end. */
  function Distance(job: Job): nat {
    2 * |job.left| +
    match job.status
    case Waiting => 4
    case Running => 3
    case Finished => 2
    case Joined => 0
  }

  function Total(f: Job -> nat, jobs: seq<Job>): nat {
    if jobs == [] then 0 else f(jobs[0]) + Total(f, jobs[1..])
  }

  lemma {:induction false} TotalUpdate(f: Job -> nat, jobs: seq<Job>, i: nat, job: Job)
    requires i < |jobs|
    ensures Total(f, jobs[i := job]) + f(jobs[i]) == Total(f, jobs) + f(job)
  {
    if i > 0 {
      assert jobs[i := job][1..] == jobs[1..][i - 1 := job];
      TotalUpdate(f, jobs[1..], i - 1, job);
    } else {
      assert jobs[0 := job][1..] == jobs[1..];
    }
  }

  lemma {:induction false} TotalZero(f: Job -> nat, jobs: seq<Job>)
    ensures Total(f, jobs) == 0 <==> forall i | 0 <= i < |jobs| :: f(jobs[i]) == 0
  {
    if jobs != [] {
      TotalZero(f, jobs[1..]);
      assert forall i | 0 <= i < |jobs| :: i == 0 || jobs[i] == jobs[1..][i - 1];
      assert forall i | 0 <= i < |jobs[1..]| :: jobs[1..][i] == jobs[i + 1];
    }
  }

  // ----- the invariant -----

  ghost predicate Placed(s: State) {
    && s.next <= |s.jobs|
    && (forall i | 0 <= i < |s.jobs| :: s.jobs[i].status == Waiting <==> i >= s.next)
    && |s.requests| == s.next && (forall i | 0 <= i < s.next :: s.requests[i] == i)
    && (forall i | 0 <= i < |s.jobs| && s.jobs[i].status in {Finished, Joined} && s.jobs[i].ok :: s.jobs[i].left == [])
    && (forall i | 0 <= i < |s.jobs| && s.jobs[i].status == Joined && !s.jobs[i].ok :: s.phase == Failed)
  }

  ghost predicate Bounded(workers: nat, s: State) {
    && s.inFlight <= Limit(workers)
    && (s.phase != Failed ==> s.inFlight == Total(Busy, s.jobs))
    && (s.phase == Selecting && s.next < |s.jobs| ==> s.inFlight == Limit(workers))
    && (s.phase in {Flushing, Done} ==> s.inFlight == 0 && s.next == |s.jobs|)
    && (s.phase == Done ==> s.progress == [])
  }

  /** Every reported byte is counted, or waits in the channel, or has still to be reported. */
  ghost predicate Conserved(tasks: seq<Task>, s: State) {
    && Sum(s.progress) + Total(Unreported, s.jobs) <= Total(Unreported, Jobs(tasks))
    && s.total == Min(U64_MAX, Total(Unreported, Jobs(tasks)) - Sum(s.progress) - Total(Unreported, s.jobs))
  }

  ghost predicate SameOutcomes(tasks: seq<Task>, s: State) {
    && |s.jobs| == |tasks|
    && (forall i | 0 <= i < |tasks| :: s.jobs[i].ok == tasks[i].ok)
    && (s.phase == Failed ==> exists i :: 0 <= i < |tasks| && !tasks[i].ok)
  }

  ghost predicate Inv(tasks: seq<Task>, workers: nat, s: State) {
    Placed(s) && Bounded(workers, s) && Conserved(tasks, s) && SameOutcomes(tasks, s)
  }

  lemma InitialInv(tasks: seq<Task>, workers: nat, s: State)
    requires Initial(tasks, s)
    ensures Inv(tasks, workers, s)
  {
    TotalZero(Busy, s.jobs);
  }

  lemma JoinKeepsPlaced(s: State, i: nat)
    requires Placed(s) && s.phase == Selecting && i < |s.jobs| && s.jobs[i].status == Finished
    ensures Placed(Joining(s, i))
  {
    assert i < s.next;
  }

  lemma StepKeepsPlaced(workers: nat, s: State, step: Step)
    requires Placed(s) && Enabled(workers, s, step)
    ensures Placed(Do(workers, s, step))
  {
    if step.Join? { JoinKeepsPlaced(s, step.i); }
  }

  lemma StepKeepsOutcomes(tasks: seq<Task>, workers: nat, s: State, step: Step)
    requires SameOutcomes(tasks, s) && s.next <= |s.jobs| && Enabled(workers, s, step)
    ensures SameOutcomes(tasks, Do(workers, s, step))
  {
  }

  lemma StatusUpdate(f: Job -> nat, jobs: seq<Job>, i: nat, status: Status)
    requires i < |jobs|
    ensures Total(f, WithStatus(jobs, i, status)) + f(jobs[i]) == Total(f, jobs) + f(jobs[i].(status := status))
  {
    TotalUpdate(f, jobs, i, jobs[i].(status := status));
  }

  lemma StepKeepsBounded(tasks: seq<Task>, workers: nat, s: State, step: Step)
    requires Inv(tasks, workers, s) && Enabled(workers, s, step)
    ensures Bounded(workers, Do(workers, s, step))
  {
    match step
    case Spawn => StatusUpdate(Busy, s.jobs, s.next, Running);
    case Report(i) => TotalUpdate(Busy, s.jobs, i, s.jobs[i].(left := s.jobs[i].left[1..]));
    case Finish(i) => StatusUpdate(Busy, s.jobs, i, Finished);
    case Join(i) =>
      StatusUpdate(Busy, s.jobs, i, Joined);
      if s.next < |s.jobs| {
        StatusUpdate(Busy, WithStatus(s.jobs, i, Joined), s.next, Running);
      }
    case _ =>
  }

  lemma StepKeepsConserved(tasks: seq<Task>, workers: nat, s: State, step: Step)
    requires Inv(tasks, workers, s) && Enabled(workers, s, step)
    ensures Conserved(tasks, Do(workers, s, step))
  {
    match step
    case Spawn => StatusUpdate(Unreported, s.jobs, s.next, Running);
    case Report(i) =>
      TotalUpdate(Unreported, s.jobs, i, s.jobs[i].(left := s.jobs[i].left[1..]));
      SumAppend(s.progress, s.jobs[i].left[0]);
    case Finish(i) => StatusUpdate(Unreported, s.jobs, i, Finished);
    case Join(i) =>
      StatusUpdate(Unreported, s.jobs, i, Joined);
      if s.next < |s.jobs| {
        StatusUpdate(Unreported, WithStatus(s.jobs, i, Joined), s.next, Running);
      }
    case _ =>
  }

  lemma StepKeepsInv(tasks: seq<Task>, workers: nat, s: State, step: Step)
    requires Inv(tasks, workers, s) && Enabled(workers, s, step)
    ensures Inv(tasks, workers, Do(workers, s, step))
  {
    StepKeepsPlaced(workers, s, step);
    StepKeepsOutcomes(tasks, workers, s, step);
    StepKeepsBounded(tasks, workers, s, step);
    StepKeepsConserved(tasks, workers, s, step);
  }

  // ----- progress -----

  function PhaseRank(phase: Phase): nat {
    match phase
    case Filling => 3
    case Selecting => 2
    case Flushing => 1
    case _ => 0
  }

  function Remaining(s: State): nat {
    Total(Distance, s.jobs) + |s.progress| + PhaseRank(s.phase)
  }

  lemma JoinMakesProgress(s: State, i: nat)
    requires Placed(s) && i < |s.jobs| && s.jobs[i].status == Finished && s.phase == Selecting
    ensures Remaining(Joining(s, i)) < Remaining(s)
  {
    StatusUpdate(Distance, s.jobs, i, Joined);
    if s.next < |s.jobs| {
      StatusUpdate(Distance, WithStatus(s.jobs, i, Joined), s.next, Running);
    }
  }

  lemma StepMakesProgress(tasks: seq<Task>, workers: nat, s: State, step: Step)
    requires Inv(tasks, workers, s) && Enabled(workers, s, step)
    ensures Remaining(Do(workers, s, step)) < Remaining(s)
  {
    match step
    case Spawn => StatusUpdate(Distance, s.jobs, s.next, Running);
    case Report(i) => TotalUpdate(Distance, s.jobs, i, s.jobs[i].(left := s.jobs[i].left[1..]));
    case Finish(i) => StatusUpdate(Distance, s.jobs, i, Finished);
    case Join(i) => JoinMakesProgress(s, i);
    case _ =>
  }

  predicate Terminal(s: State) {
    s.phase in {Done, Failed}
  }

  /** While a task is in flight, one is running or can be joined: `join_next` never finds the set of tasks empty. */
  lemma SomebodyIsInFlight(tasks: seq<Task>, workers: nat, s: State) returns (i: nat)
    requires Inv(tasks, workers, s) && s.phase != Failed && s.inFlight > 0
    ensures i < |s.jobs| && s.jobs[i].status in {Running, Finished}
  {
    TotalZero(Busy, s.jobs);
    i :| 0 <= i < |s.jobs| && Busy(s.jobs[i]) != 0;
  }

  lemma SomebodyCanMove(tasks: seq<Task>, workers: nat, s: State) returns (step: Step)
    requires Inv(tasks, workers, s) && !Terminal(s)
    ensures Enabled(workers, s, step)
  {
    match s.phase
    case Filling => step := if s.next < |s.jobs| && s.inFlight < Limit(workers) then Spawn else EndFilling;
    case Selecting =>
      if s.inFlight == 0 {
        step := EndSelecting;
      } else {
        var i := SomebodyIsInFlight(tasks, workers, s);
        step := if s.jobs[i].status == Finished then Join(i)
                else if s.jobs[i].left == [] then Finish(i)
                else Report(i);
      }
    case Flushing => step := if s.progress == [] then Complete else FlushProgress;
  }

  // ----- whole runs -----

  ghost predicate IsRun(workers: nat, from: State, steps: seq<Step>, to: State)
    decreases steps
  {
    if steps == [] then from == to
    else Enabled(workers, from, steps[0]) && IsRun(workers, Do(workers, from, steps[0]), steps[1..], to)
  }

  lemma {:induction false} RunFacts(tasks: seq<Task>, workers: nat, from: State, steps: seq<Step>, to: State)
    requires Inv(tasks, workers, from) && IsRun(workers, from, steps, to)
    ensures Inv(tasks, workers, to) && |steps| + Remaining(to) <= Remaining(from)
    decreases steps
  {
    if steps != [] {
      StepKeepsInv(tasks, workers, from, steps[0]);
      StepMakesProgress(tasks, workers, from, steps[0]);
      RunFacts(tasks, workers, Do(workers, from, steps[0]), steps[1..], to);
    }
  }

  predicate AllSucceed(tasks: seq<Task>) {
    forall i | 0 <= i < |tasks| :: tasks[i].ok
  }

  lemma AtTheEnd(tasks: seq<Task>, workers: nat, s: State)
    requires Inv(tasks, workers, s) && s.phase == Done
    ensures AllSucceed(tasks) && |s.requests| == |tasks|
    ensures s.total == Min(U64_MAX, Total(Unreported, Jobs(tasks)))
  {
    TotalZero(Busy, s.jobs);
    forall i | 0 <= i < |s.jobs| ensures s.jobs[i].status == Joined && s.jobs[i].ok && Unreported(s.jobs[i]) == 0 {
      assert Busy(s.jobs[i]) == 0;
    }
    TotalZero(Unreported, s.jobs);
  }

  /**
    In every order in which tasks report, finish and are joined: entries are requested in order, each at most once; as
    many as there are workers are in flight, one at least, until all have been requested, and never more; the run is
    bounded and never stuck before its end; it ends well exactly when every task succeeds, and then each entry has been
    requested once and every reported byte counted.
  */
  lemma {:induction false} EveryRunFetchesEverything(tasks: seq<Task>, workers: nat, start: State, steps: seq<Step>,
                                                     end: State)
    requires Initial(tasks, start) && IsRun(workers, start, steps, end)
    ensures |steps| <= Remaining(start)
    ensures |end.requests| <= |tasks| && forall i | 0 <= i < |end.requests| :: end.requests[i] == i
    ensures var places := if workers == 0 then 1 else workers;
            end.inFlight <= places && (end.phase == Selecting && |end.requests| < |tasks| ==> end.inFlight == places)
    ensures (forall step :: !Enabled(workers, end, step)) ==> Terminal(end)
    ensures Terminal(end) ==> (end.phase == Done <==> AllSucceed(tasks))
    ensures end.phase == Done ==>
      |end.requests| == |tasks| && end.total == Min(U64_MAX, Total(Unreported, Jobs(tasks)))
  {
    InitialInv(tasks, workers, start);
    RunFacts(tasks, workers, start, steps, end);
    if !Terminal(end) {
      var step := SomebodyCanMove(tasks, workers, end);
    }
    if end.phase == Done {
      AtTheEnd(tasks, workers, end);
    }
  }

  // ----- the receiver -----

  /**
    A task fetches one entry under credit: it reports each of its reads, and it can succeed only when its transfer has
    been received. It need not succeed then, as the hash may be wrong.
  */
  ghost predicate Fetches(task: Task, size: nat) {
    exists source: seq<Byte>, start: CreditTransfer.State, steps: seq<CreditTransfer.Step>, end: CreditTransfer.State ::
      && CreditTransfer.Initial(start) && CreditTransfer.IsRun(source, size, start, steps, end)
      && task.deltas == CreditTransfer.ReadSizes(steps)
      && (task.ok ==> end.receiver == CreditTransfer.Received)
  }

  ghost predicate EachFetches(tasks: seq<Task>, files: seq<PreparedEntry>) {
    && |tasks| == |files|
    && forall i | 0 <= i < |tasks| :: files[i].size <= U64_MAX && Fetches(tasks[i], files[i].size)
  }

  /** Each task that succeeds has reported as many bytes as its entry is announced to hold. */
  ghost predicate Faithful(tasks: seq<Task>, files: seq<PreparedEntry>) {
    |tasks| == |files| && forall i | 0 <= i < |tasks| && tasks[i].ok :: Sum(tasks[i].deltas) == files[i].size
  }

  lemma {:induction false} FetchReportsSize(task: Task, size: nat)
    requires size <= U64_MAX && Fetches(task, size) && task.ok
    ensures Sum(task.deltas) == size
  {
    var source: seq<Byte>, start: CreditTransfer.State, steps: seq<CreditTransfer.Step>, end: CreditTransfer.State :|
      && CreditTransfer.Initial(start) && CreditTransfer.IsRun(source, size, start, steps, end)
      && task.deltas == CreditTransfer.ReadSizes(steps)
      && (task.ok ==> end.receiver == CreditTransfer.Received);
    CreditTransfer.ReportedIsRead(source, size, start, steps, end);
    CreditTransfer.EveryScheduleDelivers(source, size, start, steps, end);
  }

  lemma FetchesAreFaithful(tasks: seq<Task>, files: seq<PreparedEntry>)
    requires EachFetches(tasks, files)
    ensures Faithful(tasks, files)
  {
    forall i | 0 <= i < |tasks| && tasks[i].ok ensures Sum(tasks[i].deltas) == files[i].size {
      FetchReportsSize(tasks[i], files[i].size);
    }
  }

  lemma {:induction false} FaithfulTotal(tasks: seq<Task>, files: seq<PreparedEntry>)
    requires Faithful(tasks, files) && AllSucceed(tasks)
    ensures Total(Unreported, Jobs(tasks)) == Sum(Sizes(files))
  {
    if tasks != [] {
      FaithfulTotal(tasks[1..], files[1..]);
      assert Jobs(tasks)[1..] == Jobs(tasks[1..]);
      assert Sizes(files)[1..] == Sizes(files[1..]);
    }
  }

  /** The loop variables of the receiver, with the tasks it has spawned and the channel they report on. */
  class DirectoryReceiver {
    const workerCount: nat
    ghost const tasks: seq<Task>

    var jobs: seq<Job>
    var progress: seq<nat>
    var entryIndex: nat
    var inFlight: nat
    var totalComplete: nat
    var requests: seq<nat>

    ghost function View(phase: Phase): State
      reads this
    {
      State(phase, entryIndex, inFlight, jobs, progress, totalComplete, requests)
    }

    constructor (tasks: seq<Task>, workers: nat)
      ensures this.tasks == tasks && workerCount == Limit(workers) && Initial(tasks, View(Filling))
    {
      this.tasks := tasks;
      workerCount := if workers == 0 then 1 else workers;
      jobs := seq(|tasks|, i requires 0 <= i < |tasks| => Job(Waiting, tasks[i].deltas, tasks[i].ok));
      progress, entryIndex, inFlight, totalComplete, requests := [], 0, 0, 0, [];
    }

    method SpawnDirectoryEntryReceive()
      requires entryIndex < |jobs|
      modifies this
      ensures forall phase :: View(phase) == SpawnNext(old(View(phase)))
    {
      jobs := jobs[entryIndex := jobs[entryIndex].(status := Running)];
      requests := requests + [entryIndex];
      entryIndex := entryIndex + 1;
      inFlight := inFlight + 1;
    }

    method CountProgress()
      requires progress != []
      modifies this`totalComplete, this`progress
      ensures forall phase :: View(phase) == Counted(old(View(phase)))
    {
      totalComplete := SaturatingAdd(totalComplete, progress[0]);
      progress := progress[1..];
    }

    /** The outcome of one task; while all goes well the next entry takes its place. */
    method JoinNext(i: nat) returns (ok: bool)
      requires i < |jobs|
      modifies this
      ensures ok == old(jobs)[i].ok
      ensures View(if ok then Selecting else Failed) == Joining(old(View(Selecting)), i)
    {
      inFlight := SaturatingSub(inFlight, 1);
      ok := jobs[i].ok;
      jobs := jobs[i := jobs[i].(status := Joined)];
      if ok && entryIndex < |jobs| {
        SpawnDirectoryEntryReceive();
      }
    }

    /** A running task makes its next report, or finishes; the schedule decides when. */
    method TaskMoves(i: nat) returns (ghost step: Step)
      requires i < |jobs| && jobs[i].status == Running
      modifies this`jobs, this`progress
      ensures Enabled(workerCount, old(View(Selecting)), step)
      ensures View(Selecting) == Do(workerCount, old(View(Selecting)), step)
    {
      var job := jobs[i];
      var reports: bool := *;
      if job.left != [] && (job.ok || reports) {
        step := Report(i);
        jobs := jobs[i := job.(left := job.left[1..])];
        progress := progress + [job.left[0]];
      } else {
        step := Finish(i);
        jobs := jobs[i := job.(status := Finished)];
      }
    }

    method FillPool()
      requires Inv(tasks, workerCount, View(Filling)) && workerCount > 0
      modifies this
      ensures Inv(tasks, workerCount, View(Selecting))
      ensures inFlight == workerCount || entryIndex == |jobs|
    {
      while entryIndex < |jobs| && inFlight < workerCount
        invariant Inv(tasks, workerCount, View(Filling))
      {
        StepKeepsInv(tasks, workerCount, View(Filling), Spawn);
        SpawnDirectoryEntryReceive();
      }
      StepKeepsInv(tasks, workerCount, View(Filling), EndFilling);
    }

    /** One turn of the selecting loop: a report, a join, or a task at work while the loop waits. */
    method SelectOnce() returns (ok: bool, ghost step: Step)
      requires Inv(tasks, workerCount, View(Selecting)) && inFlight > 0
      modifies this
      ensures Enabled(workerCount, old(View(Selecting)), step)
      ensures View(if ok then Selecting else Failed) == Do(workerCount, old(View(Selecting)), step)
    {
      ghost var at := SomebodyIsInFlight(tasks, workerCount, View(Selecting));
      ok := true;
      var report: bool := *;
      if progress != [] && report {
        step := TakeProgress;
        CountProgress();
      } else {
        assert exists i :: 0 <= i < |jobs| && jobs[i].status in {Running, Finished};
        var i :| 0 <= i < |jobs| && jobs[i].status in {Running, Finished};
        if jobs[i].status == Running {
          step := TaskMoves(i);
        } else {
          step := Join(i);
          ok := JoinNext(i);
        }
      }
    }

    method Flush()
      requires Inv(tasks, workerCount, View(Flushing))
      modifies this`totalComplete, this`progress
      ensures Inv(tasks, workerCount, View(Done))
    {
      while progress != []
        invariant Inv(tasks, workerCount, View(Flushing))
        decreases |progress|
      {
        StepKeepsInv(tasks, workerCount, View(Flushing), FlushProgress);
        CountProgress();
      }
      StepKeepsInv(tasks, workerCount, View(Flushing), Complete);
    }

    /**
      Fetches every file entry. It succeeds exactly when every task does, and then as many requests have been made as
      the server waits for, and the progress reported last is the size of the whole directory.
    */
    method ReceiveDirectoryEntries(entries: seq<PreparedEntry>) returns (ok: bool)
      requires workerCount > 0 && Initial(tasks, View(Filling)) && EachFetches(tasks, Files(entries))
      modifies this
      ensures ok <==> AllSucceed(tasks)
      ensures forall i | 0 <= i < |requests| :: requests[i] == i
      ensures ok ==> |requests| == |Files(entries)| && totalComplete == TotalSize(entries)
    {
      InitialInv(tasks, workerCount, View(Filling));
      FillPool();
      while inFlight > 0
        invariant Inv(tasks, workerCount, View(Selecting))
        decreases Remaining(View(Selecting))
      {
        ghost var before := View(Selecting);
        ghost var step;
        ok, step := SelectOnce();
        StepKeepsInv(tasks, workerCount, before, step);
        StepMakesProgress(tasks, workerCount, before, step);
        if !ok {
          return;
        }
      }
      StepKeepsInv(tasks, workerCount, View(Selecting), EndSelecting);
      Flush();
      AtTheEnd(tasks, workerCount, View(Done));
      FetchesAreFaithful(tasks, Files(entries));
      FaithfulTotal(tasks, Files(entries));
      ok := true;
    }
  }
}
