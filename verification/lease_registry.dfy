/**
  Room leases: the two stores, which drop expired records only when an operation comes by, against a store that never
  drops any and looks at the clock instead.
*/
module LeaseRegistry {
  import opened Wrappers
  import opened Bytes

  const MAX_TTL_SECONDS: nat := 3600

  datatype Record = Record(ticket: string, capabilities: string, expires: nat)

  type Entries = map<string, Record>

  datatype Op =
    | Put(room: string, ticket: string, ttl: nat, capabilities: string, now: nat)
    | Get(room: string, now: nat)
    | Delete(room: string)
    | Purge(now: nat)

  datatype Answer =
    | Registered(expires: nat) | Found(record: Record) | Removed(count: nat)
    | InvalidTtl | RoomAlreadyExists | RoomNotFound

  function NormalizedTtl(ttl: nat): nat {
    Min(ttl, MAX_TTL_SECONDS)
  }

  function Unexpired(entries: Entries, now: nat): Entries {
    map room | room in entries && entries[room].expires > now :: entries[room]
  }

  function CountRemoved(before: Entries, after: Entries): nat {
    SaturatingSub(|before.Keys|, |after.Keys|)
  }

  /** A put on entries of which none is in the way just because it has expired. */
  function PutFresh(entries: Entries, room: string, record: Record, ttl: nat): (Entries, Answer) {
    if ttl == 0 then (entries, InvalidTtl)
    else if room in entries && entries[room].ticket != record.ticket then (entries, RoomAlreadyExists)
    else (entries[room := record], Registered(record.expires))
  }

  function Lookup(entries: Entries, room: string): Answer {
    if room in entries then Found(entries[room]) else RoomNotFound
  }

  function NewRecord(op: Op): Record
    requires op.Put?
  {
    Record(op.ticket, op.capabilities, op.now + NormalizedTtl(op.ttl))
  }

  /** The in-memory store: whatever has expired goes first, then the operation is carried out. */
  function Lazily(entries: Entries, op: Op): (Entries, Answer) {
    match op
    case Put(room, _, ttl, _, now) => PutFresh(Unexpired(entries, now), room, NewRecord(op), ttl)
    case Get(room, now) => (Unexpired(entries, now), Lookup(Unexpired(entries, now), room))
    case Delete(room) => (entries - {room}, Removed(if room in entries then 1 else 0))
    case Purge(now) => (Unexpired(entries, now), Removed(CountRemoved(entries, Unexpired(entries, now))))
  }

  /** The time-indexed store: nothing is ever purged, an expired record just does not count. */
  function Timely(entries: Entries, op: Op): (Entries, Answer) {
    match op
    case Put(room, ticket, ttl, _, now) =>
      if ttl == 0 then (entries, InvalidTtl)
      else if room in entries && entries[room].expires > now && entries[room].ticket != ticket then
        (entries, RoomAlreadyExists)
      else (entries[room := NewRecord(op)], Registered(NewRecord(op).expires))
    case Get(room, now) =>
      (entries, if room in entries && entries[room].expires > now then Found(entries[room]) else RoomNotFound)
    case Delete(room) => (entries - {room}, Removed(if room in entries then 1 else 0))
    case Purge(_) => (entries, Removed(0))
  }

  // ----- the table -----

  const I64_LIMIT: int := 0x8000_0000_0000_0000

  function AsI64(n: nat): int {
    if n < I64_LIMIT then n else n - 2 * I64_LIMIT
  }

  function AsU64(i: int): nat
    requires -I64_LIMIT <= i
  {
    if i < 0 then i + 2 * I64_LIMIT else i
  }

  /** A row keeps its expiry as a signed 64-bit integer. */
  datatype Row = Row(ticket: string, capabilities: string, expires: int)

  type Table = map<string, Row>

  ghost predicate Signed(table: Table) {
    forall room | room in table :: -I64_LIMIT <= table[room].expires < I64_LIMIT
  }

  function RowsAfter(table: Table, bound: int): Table {
    map room | room in table && table[room].expires > bound :: table[room]
  }

  function ReadRow(row: Row): Record
    requires -I64_LIMIT <= row.expires
  {
    Record(row.ticket, row.capabilities, AsU64(row.expires))
  }

  function WriteRow(record: Record): Row {
    Row(record.ticket, record.capabilities, AsI64(record.expires))
  }

  /** The rows that stand for some entries. */
  function Rows(entries: Entries): Table {
    map room | room in entries :: WriteRow(entries[room])
  }

  function InSql(table: Table, op: Op): (r: (Table, Answer))
    requires Signed(table) && Horizon(op) < 2 * I64_LIMIT
    ensures Signed(r.0)
  {
    match op
    case Put(room, ticket, ttl, _, now) =>
      var kept := RowsAfter(table, AsI64(now));
      if ttl == 0 then (kept, InvalidTtl)
      else if room in kept && kept[room].ticket != ticket then (kept, RoomAlreadyExists)
      else (kept[room := WriteRow(NewRecord(op))], Registered(NewRecord(op).expires))
    case Get(room, now) =>
      var kept := RowsAfter(table, AsI64(now));
      (kept, if room in kept then Found(ReadRow(kept[room])) else RoomNotFound)
    case Delete(room) => (table - {room}, Removed(if room in table then 1 else 0))
    case Purge(now) =>
      var kept := RowsAfter(table, AsI64(now));
      (kept, Removed(SaturatingSub(|table.Keys|, |kept.Keys|)))
  }

  // ----- times -----

  predicate HasTime(op: Op) {
    !op.Delete?
  }

  function Time(op: Op): nat
    requires HasTime(op)
  {
    op.now
  }

  /** The latest time an operation deals with: its own, or for a put the new lease's end. */
  function Horizon(op: Op): nat {
    if op.Put? then op.now + NormalizedTtl(op.ttl) else if op.Delete? then 0 else op.now
  }

  /** Times do not go back. */
  ghost predicate Ordered(ops: seq<Op>) {
    forall i, j | 0 <= i < j < |ops| && HasTime(ops[i]) && HasTime(ops[j]) :: Time(ops[i]) <= Time(ops[j])
  }

  // ----- runs -----

  function LazyRun(ops: seq<Op>): (Entries, seq<Answer>) {
    if ops == [] then (map[], [])
    else
      var before := LazyRun(ops[..|ops| - 1]);
      var next := Lazily(before.0, ops[|ops| - 1]);
      (next.0, before.1 + [next.1])
  }

  function TimelyRun(ops: seq<Op>): (Entries, seq<Answer>) {
    if ops == [] then (map[], [])
    else
      var before := TimelyRun(ops[..|ops| - 1]);
      var next := Timely(before.0, ops[|ops| - 1]);
      (next.0, before.1 + [next.1])
  }

  function SqlRun(ops: seq<Op>): (r: (Table, seq<Answer>))
    requires forall i | 0 <= i < |ops| :: Horizon(ops[i]) < 2 * I64_LIMIT
    ensures Signed(r.0)
  {
    if ops == [] then (map[], [])
    else
      var before := SqlRun(ops[..|ops| - 1]);
      var next := InSql(before.0, ops[|ops| - 1]);
      (next.0, before.1 + [next.1])
  }

  // ----- lazy against timely -----

  /** What the lazy store still has is what the other has; what it has dropped had expired by `now`. */
  ghost predicate Agrees(lazy: Entries, timely: Entries, now: nat) {
    && (forall room | room in lazy :: room in timely && lazy[room] == timely[room])
    && (forall room | room in timely && timely[room].expires > now :: room in lazy)
  }

  lemma StepAgrees(lazy: Entries, timely: Entries, now: nat, op: Op)
    requires Agrees(lazy, timely, now) && (HasTime(op) ==> now <= Time(op))
    ensures Agrees(Lazily(lazy, op).0, Timely(timely, op).0, if HasTime(op) then Time(op) else now)
    ensures op.Put? || op.Get? ==> Lazily(lazy, op).1 == Timely(timely, op).1
  {
  }

  /** The latest time in a run. */
  function Clock(ops: seq<Op>): nat {
    if ops == [] then 0
    else
      var last := ops[|ops| - 1];
      if HasTime(last) then Time(last) else Clock(ops[..|ops| - 1])
  }

  lemma {:induction false} ClockIsATime(ops: seq<Op>)
    ensures Clock(ops) == 0 || exists i :: 0 <= i < |ops| && HasTime(ops[i]) && Time(ops[i]) == Clock(ops)
  {
    if ops != [] {
      var n := |ops| - 1;
      ClockIsATime(ops[..n]);
      if HasTime(ops[n]) {
        assert Time(ops[n]) == Clock(ops);
      } else if Clock(ops) != 0 {
        var i :| 0 <= i < n && HasTime(ops[..n][i]) && Time(ops[..n][i]) == Clock(ops[..n]);
        assert HasTime(ops[i]) && Time(ops[i]) == Clock(ops);
      }
    }
  }

  predicate Answered(op: Op) {
    op.Put? || op.Get?
  }

  lemma {:induction false} LazyRunAgrees(ops: seq<Op>)
    requires Ordered(ops)
    ensures Agrees(LazyRun(ops).0, TimelyRun(ops).0, Clock(ops))
    ensures SameAnswers(ops, LazyRun(ops).1, TimelyRun(ops).1)
  {
    if ops != [] {
      var n := |ops| - 1;
      var lazy, timely := LazyRun(ops[..n]), TimelyRun(ops[..n]);
      LazyRunAgrees(ops[..n]);
      ClockIsATime(ops[..n]);
      StepAgrees(lazy.0, timely.0, Clock(ops[..n]), ops[n]);
      AnswersExtend(ops[..n], lazy.1, timely.1, ops[n], Lazily(lazy.0, ops[n]).1, Timely(timely.0, ops[n]).1);
      assert ops[..n] + [ops[n]] == ops;
    }
  }

  // ----- the table against the lazy store -----

  /** A signed 64-bit integer keeps the order of times on one side of 2^63. */
  predicate SameSide(a: nat, b: nat) {
    a < I64_LIMIT <==> b < I64_LIMIT
  }

  /** Signed comparison agrees with the clock's order exactly when both times lie on the same side of 2^63. */
  lemma SignedOrder(a: nat, b: nat)
    requires a <= U64_MAX && b <= U64_MAX
    ensures (AsI64(a) <= AsI64(b) <==> a <= b) <==> SameSide(a, b)
  {
  }

  ghost predicate Storable(entries: Entries) {
    forall room | room in entries :: entries[room].expires <= U64_MAX
  }

  lemma RowsAreSigned(entries: Entries)
    requires Storable(entries)
    ensures Signed(Rows(entries)) && Rows(entries).Keys == entries.Keys
  {
  }

  /** Purging the table leaves the rows of the unexpired entries exactly when none lies across 2^63 from the clock. */
  lemma PurgeInSql(entries: Entries, now: nat)
    requires Storable(entries) && now <= U64_MAX
    ensures RowsAfter(Rows(entries), AsI64(now)) == Rows(Unexpired(entries, now)) <==>
            forall room | room in entries :: SameSide(entries[room].expires, now)
  {
    RowsAreSigned(entries);
    var kept, right := RowsAfter(Rows(entries), AsI64(now)), Rows(Unexpired(entries, now));
    forall room | room in entries ensures (room in kept <==> room in right) <==> SameSide(entries[room].expires, now) {
      SignedOrder(entries[room].expires, now);
    }
    if forall room | room in entries :: SameSide(entries[room].expires, now) {
      assert kept == right;
    } else {
      var room :| room in entries && !SameSide(entries[room].expires, now);
      assert !(room in kept <==> room in right);
    }
  }

  /** A get on the table is answered as in memory exactly when the room's record does not lie across 2^63. */
  lemma GetInSql(entries: Entries, room: string, now: nat)
    requires Storable(entries) && now <= U64_MAX
    ensures Signed(Rows(entries)) && Horizon(Get(room, now)) < 2 * I64_LIMIT
    ensures InSql(Rows(entries), Get(room, now)).1 == Lazily(entries, Get(room, now)).1 <==>
            (room in entries ==> SameSide(entries[room].expires, now))
  {
    RowsAreSigned(entries);
    if room in entries {
      SignedOrder(entries[room].expires, now);
    }
  }

  /** A put on the table is answered as in memory, unless a record with another ticket lies across 2^63. */
  lemma PutInSql(entries: Entries, op: Op)
    requires Storable(entries) && op.Put? && Horizon(op) <= U64_MAX
    ensures Signed(Rows(entries))
    ensures InSql(Rows(entries), op).1 == Lazily(entries, op).1 <==>
            (op.ttl > 0 && op.room in entries && entries[op.room].ticket != op.ticket ==>
              SameSide(entries[op.room].expires, op.now))
  {
    RowsAreSigned(entries);
    if op.room in entries {
      SignedOrder(entries[op.room].expires, op.now);
    }
  }

  /** The entries a run deals with, and its clock, stay on the same side of 2^63. */
  ghost predicate AllOn(entries: Entries, low: bool) {
    forall room | room in entries :: entries[room].expires <= U64_MAX && (entries[room].expires < I64_LIMIT <==> low)
  }

  predicate OpOn(op: Op, low: bool) {
    HasTime(op) ==> Horizon(op) <= U64_MAX && (op.now < I64_LIMIT <==> low) && (Horizon(op) < I64_LIMIT <==> low)
  }

  ghost predicate RunOn(ops: seq<Op>, low: bool) {
    forall i | 0 <= i < |ops| :: OpOn(ops[i], low)
  }

  lemma RowsOfOneMore(entries: Entries, room: string, record: Record)
    ensures Rows(entries[room := record]) == Rows(entries)[room := WriteRow(record)]
  {
  }

  lemma {:induction false} PutRows(entries: Entries, op: Op, low: bool)
    requires AllOn(entries, low) && op.Put? && OpOn(op, low)
    ensures Signed(Rows(entries)) && AllOn(Lazily(entries, op).0, low)
    ensures InSql(Rows(entries), op).0 == Rows(Lazily(entries, op).0)
  {
    RowsAreSigned(entries);
    PurgeInSql(entries, op.now);
    RowsOfOneMore(Unexpired(entries, op.now), op.room, NewRecord(op));
  }

  lemma {:induction false} StepInSql(entries: Entries, op: Op, low: bool)
    requires AllOn(entries, low) && OpOn(op, low)
    ensures Signed(Rows(entries)) && Horizon(op) < 2 * I64_LIMIT
    ensures AllOn(Lazily(entries, op).0, low)
    ensures InSql(Rows(entries), op).0 == Rows(Lazily(entries, op).0)
    ensures Answered(op) ==> InSql(Rows(entries), op).1 == Lazily(entries, op).1
  {
    RowsAreSigned(entries);
    match op
    case Put(_, _, _, _, _) => PutRows(entries, op, low); PutInSql(entries, op);
    case Get(room, now) => PurgeInSql(entries, now); GetInSql(entries, room, now);
    case Delete(room) => assert Rows(entries - {room}) == Rows(entries) - {room};
    case Purge(now) => PurgeInSql(entries, now);
  }

  /** The answers to puts and gets. */
  ghost predicate SameAnswers(ops: seq<Op>, a: seq<Answer>, b: seq<Answer>) {
    |a| == |b| == |ops| && forall i | 0 <= i < |ops| && Answered(ops[i]) :: a[i] == b[i]
  }

  lemma AnswersExtend(ops: seq<Op>, a: seq<Answer>, b: seq<Answer>, op: Op, x: Answer, y: Answer)
    requires SameAnswers(ops, a, b) && (Answered(op) ==> x == y)
    ensures SameAnswers(ops + [op], a + [x], b + [y])
  {
  }

  lemma {:induction false} SqlRunAgrees(ops: seq<Op>, low: bool)
    requires RunOn(ops, low)
    ensures forall i | 0 <= i < |ops| :: Horizon(ops[i]) < 2 * I64_LIMIT
    ensures AllOn(LazyRun(ops).0, low)
    ensures SqlRun(ops).0 == Rows(LazyRun(ops).0)
    ensures SameAnswers(ops, SqlRun(ops).1, LazyRun(ops).1)
  {
    assert forall i | 0 <= i < |ops| :: OpOn(ops[i], low);
    if ops != [] {
      var n := |ops| - 1;
      var lazy := LazyRun(ops[..n]);
      SqlRunAgrees(ops[..n], low);
      var sql := SqlRun(ops[..n]);
      StepInSql(lazy.0, ops[n], low);
      AnswersExtend(ops[..n], sql.1, lazy.1, ops[n], InSql(sql.0, ops[n]).1, Lazily(lazy.0, ops[n]).1);
      assert ops[..n] + [ops[n]] == ops;
    }
  }

  /**
    Whenever purges run, as long as the clock does not go back and neither it nor a lease's end crosses 2^63: every put
    and every get is answered alike by the in-memory store, by the table, and by the store that never purges.
  */
  lemma StoresAnswerAlike(ops: seq<Op>, low: bool, i: nat)
    requires Ordered(ops) && RunOn(ops, low) && i < |ops| && Answered(ops[i])
    ensures forall k | 0 <= k < |ops| :: Horizon(ops[k]) < 2 * I64_LIMIT
    ensures |LazyRun(ops).1| == |SqlRun(ops).1| == |TimelyRun(ops).1| == |ops|
    ensures LazyRun(ops).1[i] == TimelyRun(ops).1[i] == SqlRun(ops).1[i]
  {
    LazyRunAgrees(ops);
    SqlRunAgrees(ops, low);
  }

  // ----- leases -----

  /** At position i of a run a put is accepted for a room. */
  ghost predicate Accepted(ops: seq<Op>, room: string, i: nat)
    requires Ordered(ops) && i < |ops|
  {
    LazyRunAgrees(ops);
    ops[i].Put? && ops[i].room == room && LazyRun(ops).1[i].Registered?
  }

  /** Nothing happens to a room's lease between two positions: it is not deleted, and no put for it is accepted. */
  ghost predicate Undisturbed(ops: seq<Op>, room: string, i: nat, j: nat)
    requires Ordered(ops) && i < j <= |ops|
  {
    forall k | i < k < j :: ops[k] != Delete(room) && !Accepted(ops, room, k)
  }

  lemma {:induction false} TimelyRunPrefix(ops: seq<Op>, k: nat)
    requires k < |ops|
    ensures |TimelyRun(ops).1| == |ops|
    ensures TimelyRun(ops).1[k] == Timely(TimelyRun(ops[..k]).0, ops[k]).1
    ensures TimelyRun(ops[..k + 1]).0 == Timely(TimelyRun(ops[..k]).0, ops[k]).0
  {
    var n := |ops| - 1;
    assert ops[..k + 1][..k] == ops[..k];
    if k < n {
      TimelyRunPrefix(ops[..n], k);
      assert ops[..n][..k] == ops[..k] && ops[..n][..k + 1] == ops[..k + 1];
    } else {
      assert ops[..k + 1] == ops;
      TimelyRunLength(ops[..n]);
    }
  }

  lemma {:induction false} TimelyRunLength(ops: seq<Op>)
    ensures |TimelyRun(ops).1| == |ops|
  {
    if ops != [] {
      TimelyRunLength(ops[..|ops| - 1]);
    }
  }

  lemma {:induction false} LeaseStands(ops: seq<Op>, room: string, i: nat, j: nat)
    requires Ordered(ops) && i < j <= |ops| && Accepted(ops, room, i) && Undisturbed(ops, room, i, j)
    ensures room in TimelyRun(ops[..j]).0 && TimelyRun(ops[..j]).0[room] == NewRecord(ops[i])
  {
    LazyRunAgrees(ops);
    TimelyRunPrefix(ops, j - 1);
    if j > i + 1 {
      LeaseStands(ops, room, i, j - 1);
      assert ops[j - 1] != Delete(room) && !Accepted(ops, room, j - 1);
    }
  }

  /** The lease a put asks for: as long as it says, but for an hour at most. */
  function Lease(op: Op): Record
    requires op.Put?
  {
    Record(op.ticket, op.capabilities, op.now + if op.ttl < 3600 then op.ttl else 3600)
  }

  /** The lease accepted at position i is the last word on the room by position j. */
  ghost predicate Current(ops: seq<Op>, room: string, i: nat, j: nat)
    requires Ordered(ops) && j <= |ops|
  {
    i < j && Accepted(ops, room, i) && Undisturbed(ops, room, i, j)
  }

  /** A room that nobody has put, or that was deleted since. */
  ghost predicate Unheld(ops: seq<Op>, room: string, j: nat)
    requires Ordered(ops) && j <= |ops|
  {
    !exists i: nat :: Current(ops, room, i, j)
  }

  lemma {:induction false} EntriesHaveAPut(ops: seq<Op>, room: string, j: nat)
    requires Ordered(ops) && j <= |ops| && room in TimelyRun(ops[..j]).0
    ensures exists i: nat :: Current(ops, room, i, j)
  {
    if j > 0 {
      LazyRunAgrees(ops);
      TimelyRunPrefix(ops, j - 1);
      if Accepted(ops, room, j - 1) {
        assert Current(ops, room, j - 1, j);
      } else {
        EntriesHaveAPut(ops, room, j - 1);
        var i: nat :| Current(ops, room, i, j - 1);
        assert Current(ops, room, i, j);
      }
    }
  }

  /** The answer to a put or a look-up, when a lease is on record for the room and when none is. */
  ghost predicate Fits(op: Op, lease: Option<Record>, answer: Answer)
    requires Answered(op)
  {
    var held := lease.Some? && op.now < lease.value.expires;
    match op
    case Get(_, _) => answer == if held then Found(lease.value) else RoomNotFound
    case Put(_, ticket, ttl, _, _) =>
      answer ==
        if ttl == 0 then InvalidTtl
        else if held && ticket != lease.value.ticket then RoomAlreadyExists
        else Registered(Lease(op).expires)
  }

  /**
    A lease lasts as long as was asked for, up to an hour, unless it is deleted or renewed: until then everybody who
    looks the room up is given its ticket, and a put with another ticket is refused; from then on the room is free.
  */
  lemma {:induction false} LeaseLasts(ops: seq<Op>, room: string, i: nat, j: nat)
    requires Ordered(ops) && j < |ops| && Current(ops, room, i, j)
    requires Answered(ops[j]) && ops[j].room == room
    ensures |LazyRun(ops).1| == |ops| && Fits(ops[j], Some(Lease(ops[i])), LazyRun(ops).1[j])
  {
    LazyRunAgrees(ops);
    LeaseStands(ops, room, i, j);
    TimelyRunPrefix(ops, j);
  }

  /** And a room on which there is no lease is free. */
  lemma {:induction false} UnheldIsFree(ops: seq<Op>, room: string, j: nat)
    requires Ordered(ops) && j < |ops| && Unheld(ops, room, j)
    requires Answered(ops[j]) && ops[j].room == room
    ensures |LazyRun(ops).1| == |ops| && Fits(ops[j], None, LazyRun(ops).1[j])
  {
    LazyRunAgrees(ops);
    if room in TimelyRun(ops[..j]).0 {
      EntriesHaveAPut(ops, room, j);
    }
    TimelyRunPrefix(ops, j);
  }

  /** A purge answers with how many leases had run out. */
  lemma PurgeCounts(entries: Entries, now: nat)
    ensures Lazily(entries, Purge(now)).1 == Removed(|set room | room in entries && entries[room].expires <= now|)
  {
    var gone := set room | room in entries && entries[room].expires <= now;
    assert Unexpired(entries, now).Keys == entries.Keys - gone;
    assert gone <= entries.Keys;
  }

  // ----- where the stores differ -----

  /** A lease just put into an empty table is found again at once unless it ends past 2^63 - 1 and has begun before. */
  lemma FreshLeaseInSql(room: string, ticket: string, ttl: nat, capabilities: string, now: nat)
    requires ttl > 0 && now + NormalizedTtl(ttl) <= U64_MAX
    ensures var put := Put(room, ticket, ttl, capabilities, now);
            && Horizon(put) < 2 * I64_LIMIT
            && (InSql(InSql(map[], put).0, Get(room, now)).1 == Found(NewRecord(put)) <==>
                !(now < I64_LIMIT <= now + NormalizedTtl(ttl)))
  {
    var put := Put(room, ticket, ttl, capabilities, now);
    var table := InSql(map[], put).0;
    assert table == map[room := WriteRow(NewRecord(put))];
    SignedOrder(now + NormalizedTtl(ttl), now);
  }

  /**
    A deletion has no time of its own. Its answer is whether there was a live lease, except when a lease that has
    expired was still waiting to be purged.
  */
  lemma DeletionAnswer(lazy: Entries, timely: Entries, now: nat, room: string)
    requires Agrees(lazy, timely, now)
    ensures var live := room in timely && timely[room].expires > now;
            (Lazily(lazy, Delete(room)).1 == Removed(if live then 1 else 0))
              <==> !(room in lazy && lazy[room].expires <= now)
  {
  }

  /** A deletion, which looks at no time, is the same on the table. */
  lemma DeletionInSql(entries: Entries, room: string)
    requires Storable(entries)
    ensures Signed(Rows(entries))
    ensures var out := Lazily(entries, Delete(room)); InSql(Rows(entries), Delete(room)) == (Rows(out.0), out.1)
  {
    assert Rows(entries) - {room} == Rows(entries - {room});
  }

  // ----- the stores -----

  class RoomRegistry {
    var entries: Entries

    constructor ()
      ensures entries == map[]
    {
      entries := map[];
    }

    method PurgeExpired(now: nat) returns (removed: nat)
      modifies this
      ensures (entries, Removed(removed)) == Lazily(old(entries), Purge(now))
    {
      var before := |entries.Keys|;
      var left := entries.Keys;
      ghost var was := entries;
      while left != {}
        invariant left <= was.Keys
        invariant entries == map room | room in was && (room in left || was[room].expires > now) :: was[room]
        decreases |left|
      {
        var room :| room in left;
        left := left - {room};
        if entries[room].expires <= now {
          entries := entries - {room};
        }
      }
      assert entries == Unexpired(was, now);
      removed := SaturatingSub(before, |entries.Keys|);
    }

    method Put(room: string, ticket: string, ttl: nat, capabilities: string, now: nat) returns (answer: Answer)
      requires now + NormalizedTtl(ttl) <= U64_MAX
      modifies this
      ensures (entries, answer) == Lazily(old(entries), Op.Put(room, ticket, ttl, capabilities, now))
    {
      var _ := PurgeExpired(now);
      if ttl == 0 {
        return InvalidTtl;
      }
      var expires := now + NormalizedTtl(ttl);
      if room in entries {
        if entries[room].ticket != ticket {
          return RoomAlreadyExists;
        }
        entries := entries[room := entries[room].(capabilities := capabilities, expires := expires)];
      } else {
        entries := entries[room := Record(ticket, capabilities, expires)];
      }
      answer := Registered(expires);
    }

    method Get(room: string, now: nat) returns (answer: Answer)
      modifies this
      ensures (entries, answer) == Lazily(old(entries), Op.Get(room, now))
    {
      var _ := PurgeExpired(now);
      answer := if room in entries then Found(entries[room]) else RoomNotFound;
    }

    method Delete(room: string) returns (removed: bool)
      modifies this
      ensures (entries, Removed(if removed then 1 else 0)) == Lazily(old(entries), Op.Delete(room))
    {
      removed := room in entries;
      entries := entries - {room};
    }
  }

  /** The table behind the SQL statements, each of which is one assignment here. */
  class SqliteRoomStore {
    var rows: Table

    constructor ()
      ensures rows == map[]
    {
      rows := map[];
    }

    method DeleteExpired(bound: int) returns (deleted: nat)
      modifies this
      ensures rows == RowsAfter(old(rows), bound)
      ensures deleted == SaturatingSub(|old(rows).Keys|, |rows.Keys|)
    {
      var before := |rows.Keys|;
      rows := map room | room in rows && !(rows[room].expires <= bound) :: rows[room];
      deleted := SaturatingSub(before, |rows.Keys|);
    }

    method Put(room: string, ticket: string, ttl: nat, capabilities: string, now: nat) returns (answer: Answer)
      requires Signed(rows) && now + NormalizedTtl(ttl) <= U64_MAX
      modifies this
      ensures (rows, answer) == InSql(old(rows), Op.Put(room, ticket, ttl, capabilities, now))
    {
      var _ := DeleteExpired(AsI64(now));
      if ttl == 0 {
        return InvalidTtl;
      }
      var expires := now + NormalizedTtl(ttl);
      if room in rows {
        if rows[room].ticket != ticket {
          return RoomAlreadyExists;
        }
        rows := rows[room := rows[room].(capabilities := capabilities, expires := AsI64(expires))];
      } else {
        rows := rows[room := Row(ticket, capabilities, AsI64(expires))];
      }
      answer := Registered(expires);
    }

    method Get(room: string, now: nat) returns (answer: Answer)
      requires Signed(rows) && now <= U64_MAX
      modifies this
      ensures (rows, answer) == InSql(old(rows), Op.Get(room, now))
    {
      var _ := DeleteExpired(AsI64(now));
      if room in rows {
        var row := rows[room];
        answer := Found(Record(row.ticket, row.capabilities, AsU64(row.expires)));
      } else {
        answer := RoomNotFound;
      }
    }

    method Delete(room: string) returns (removed: bool)
      requires Signed(rows)
      modifies this
      ensures (rows, Removed(if removed then 1 else 0)) == InSql(old(rows), Op.Delete(room))
    {
      removed := room in rows;
      rows := rows - {room};
    }
  }
}
