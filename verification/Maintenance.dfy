/** Retention, quota eviction and the search index over an abstract events table. */
module Maintenance {
  import opened InsertBatching

  datatype LogEvent = LogEvent(resource: nat, time: int, text: nat)

  /** What the search index holds for an event: its own text and that of its resource. */
  datatype Document = Document(text: nat, service: nat)

  /** Events and search entries by row id, resources by their fingerprint. */
  datatype Tables = Tables(events: map<nat, LogEvent>, resources: map<nat, nat>, index: map<nat, Document>)

  const PRUNE_BATCH_ROWS: nat := 5000
  const MAX_QUOTA_ROUNDS: nat := 8
  const I64_MAX: int := 0x7FFF_FFFF_FFFF_FFFF
  const I64_MIN: int := -0x8000_0000_0000_0000

  // ---------------------------------------------------------------- the tables

  /** No event without its resource, and exactly one search entry per event, up to date. */
  predicate Consistent(db: Tables) {
    && (forall id :: id in db.events ==> db.events[id].resource in db.resources)
    && db.index.Keys == db.events.Keys
    && (forall id :: id in db.index && id in db.events && db.events[id].resource in db.resources ==>
          db.index[id] == Document(db.events[id].text, db.resources[db.events[id].resource]))
  }

  /** An insert resolves the resource first; the trigger copies the joined row into the index. */
  function Insert(db: Tables, id: nat, event: LogEvent, service: nat): Tables {
    var resources := if event.resource in db.resources then db.resources else db.resources[event.resource := service];
    Tables(db.events[id := event], resources, db.index[id := Document(event.text, resources[event.resource])])
  }

  /** A delete takes the search entries along. */
  function Remove(db: Tables, ids: set<nat>): Tables {
    Tables(db.events - ids, db.resources, db.index - ids)
  }

  function Referenced(events: map<nat, LogEvent>): set<nat> {
    set id | id in events :: events[id].resource
  }

  /** Removes the resources no event refers to. */
  function Sweep(db: Tables): Tables {
    db.(resources := map r | r in db.resources && r in Referenced(db.events) :: db.resources[r])
  }

  /** The index built anew from the view that joins events with their resources. */
  function Rebuild(db: Tables): Tables {
    db.(index := map id | id in db.events && db.events[id].resource in db.resources ::
          Document(db.events[id].text, db.resources[db.events[id].resource]))
  }

  lemma InsertKeepsConsistent(db: Tables, id: nat, event: LogEvent, service: nat)
    requires Consistent(db) && id !in db.events
    ensures Consistent(Insert(db, id, event, service))
    ensures Insert(db, id, event, service).events == db.events[id := event]
    ensures forall r :: r in db.resources ==>
              r in Insert(db, id, event, service).resources && Insert(db, id, event, service).resources[r] == db.resources[r]
  {
    var db' := Insert(db, id, event, service);
    assert db'.index.Keys == db.index.Keys + {id} && db'.events.Keys == db.events.Keys + {id};
  }

  lemma RemoveKeepsConsistent(db: Tables, ids: set<nat>)
    requires Consistent(db)
    ensures Consistent(Remove(db, ids))
  {
    assert Remove(db, ids).index.Keys == db.index.Keys - ids && Remove(db, ids).events.Keys == db.events.Keys - ids;
  }

  lemma SweepKeepsConsistent(db: Tables)
    requires Consistent(db)
    ensures Consistent(Sweep(db)) && Sweep(db).resources.Keys == Referenced(db.events)
  {
    forall id | id in db.events ensures db.events[id].resource in Referenced(db.events) {
    }
  }

  /** A rebuild changes nothing in a consistent database, and repairs any index of one that has all its resources. */
  lemma RebuildRepairs(db: Tables)
    requires forall id :: id in db.events ==> db.events[id].resource in db.resources
    ensures Consistent(Rebuild(db))
    ensures Consistent(db) ==> Rebuild(db) == db
  {
    assert Rebuild(db).index.Keys == db.events.Keys;
    if Consistent(db) {
      assert Rebuild(db).index == db.index;
    }
  }

  datatype Step =
    | Inserted(id: nat, event: LogEvent, service: nat)
    | Removed(ids: set<nat>)
    | Swept
    | Rebuilt

  function Apply(db: Tables, step: Step): Tables {
    match step
    case Inserted(id, event, service) => if id in db.events then db else Insert(db, id, event, service)
    case Removed(ids) => Remove(db, ids)
    case Swept => Sweep(db)
    case Rebuilt => Rebuild(db)
  }

  function Run(db: Tables, steps: seq<Step>): Tables
    decreases |steps|
  {
    if steps == [] then db else Run(Apply(db, steps[0]), steps[1..])
  }

  /** Every run of inserts, prunes, evictions, sweeps and rebuilds keeps one up-to-date search entry
      per event and no event without its resource. */
  lemma {:induction false} RunsStayConsistent(db: Tables, steps: seq<Step>)
    requires Consistent(db)
    ensures Consistent(Run(db, steps))
    decreases |steps|
  {
    if steps != [] {
      match steps[0] {
        case Inserted(id, event, service) =>
          if id !in db.events {
            InsertKeepsConsistent(db, id, event, service);
          }
        case Removed(ids) => RemoveKeepsConsistent(db, ids);
        case Swept => SweepKeepsConsistent(db);
        case Rebuilt => RebuildRepairs(db);
      }
      RunsStayConsistent(Apply(db, steps[0]), steps[1..]);
    }
  }

  // ---------------------------------------------------------------- choosing rows

  function Expired(events: map<nat, LogEvent>, cutoff: int): set<nat> {
    set id | id in events && events[id].time < cutoff
  }

  function Least(x: nat, y: nat): nat {
    if x < y then x else y
  }

  /** A limited select may return any `n` of the rows. */
  predicate Limited(chosen: set<nat>, from: set<nat>, n: nat) {
    chosen <= from && |chosen| == Least(n, |from|)
  }

  lemma {:induction false} LimitedExists(from: set<nat>, n: nat) returns (chosen: set<nat>)
    ensures Limited(chosen, from, n)
    decreases n
  {
    if n == 0 || from == {} {
      return {};
    }
    var x :| x in from;
    var rest := LimitedExists(from - {x}, n - 1);
    chosen := rest + {x};
  }

  /** No chosen row is newer than one left behind. */
  predicate Oldest(chosen: set<nat>, events: map<nat, LogEvent>) {
    forall x, y :: x in chosen && x in events && y in events && y !in chosen ==> events[x].time <= events[y].time
  }

  lemma {:induction false} OldestOne(events: map<nat, LogEvent>, ids: set<nat>) returns (x: nat)
    requires ids != {} && ids <= events.Keys
    ensures x in ids && forall y :: y in ids ==> events[x].time <= events[y].time
    decreases ids
  {
    x :| x in ids;
    var rest := ids - {x};
    assert forall z :: z in ids <==> z == x || z in rest;
    if rest != {} {
      var y := OldestOne(events, rest);
      if events[y].time < events[x].time {
        x := y;
      }
    }
  }

  lemma {:induction false} OldestExists(events: map<nat, LogEvent>, n: nat) returns (chosen: set<nat>)
    ensures Limited(chosen, events.Keys, n) && Oldest(chosen, events)
    decreases n
  {
    if n == 0 || events.Keys == {} {
      return {};
    }
    var x := OldestOne(events, events.Keys);
    var rest := OldestExists(events - {x}, n - 1);
    assert (events - {x}).Keys == events.Keys - {x};
    chosen := rest + {x};
    OldestPlus(events, x, rest);
  }

  lemma OldestPlus(events: map<nat, LogEvent>, x: nat, rest: set<nat>)
    requires x in events && (forall y :: y in events ==> events[x].time <= events[y].time) && Oldest(rest, events - {x})
    ensures Oldest(rest + {x}, events)
  {
    forall z, y | z in rest + {x} && z in events && y in events && y !in rest + {x} ensures events[z].time <= events[y].time {
      if z != x {
        assert z in events - {x} && y in events - {x};
      }
    }
  }

  // ---------------------------------------------------------------- retention

  function Clamp(x: int): int {
    if x < I64_MIN then I64_MIN else if I64_MAX < x then I64_MAX else x
  }

  /** `retention_cutoff`: the window is cut to the range of `i64`, and so is the difference. */
  function RetentionCutoff(now: int, window: nat): int {
    Clamp(now - if window <= I64_MAX then window else I64_MAX)
  }

  predicate CutsRight(now: int, window: nat, time: int) {
    time < RetentionCutoff(now, window) <==> time < now - window
  }

  /** The saturated cutoff expires exactly the events the true one would, unless the window is longer
      than `i64` can say and the clock is not before the epoch. */
  lemma CutoffIsExact(now: int, window: nat)
    requires I64_MIN <= now <= I64_MAX
    ensures window <= I64_MAX || now < 0 <==>
              forall time :: I64_MIN <= time <= I64_MAX ==> CutsRight(now, window, time)
  {
    if I64_MAX < window && 0 <= now {
      assert !CutsRight(now, window, now - I64_MAX - 1);
    }
  }

  class EventStore {
    var db: Tables

    constructor ()
      ensures db == Tables(map[], map[], map[])
      ensures Consistent(db)
    {
      db := Tables(map[], map[], map[]);
    }

    /** One transaction of the retention loop: up to a batch of expired rows, in no particular order. */
    method DeleteExpired(cutoff: int) returns (deleted: nat)
      modifies this
      ensures exists chosen ::
                && Limited(chosen, Expired(old(db).events, cutoff), PRUNE_BATCH_ROWS)
                && db == Remove(old(db), chosen) && deleted == |chosen|
    {
      ghost var some := LimitedExists(Expired(db.events, cutoff), PRUNE_BATCH_ROWS);
      var chosen: set<nat> :| Limited(chosen, Expired(db.events, cutoff), PRUNE_BATCH_ROWS);
      deleted := |chosen|;
      db := Remove(db, chosen);
    }

    /** `prune`: whatever rows the limited deletes choose, what is left is exactly the rows at or
        after the cutoff, and the reported count is exact. Resources are swept only when some event
        went. A transaction that fails (`fails(i)` for round `i`, `sweepFails`) ends it with what
        was deleted so far. */
    method Prune(window: Option<nat>, now: int, fails: nat -> bool, sweepFails: bool)
      returns (error: bool, removed: nat, sweptResources: nat)
      requires Consistent(db)
      modifies this
      ensures Consistent(db)
      ensures !error ==>
        var gone := if window.None? then {} else Expired(old(db).events, RetentionCutoff(now, window.value));
        && removed == |gone|
        && db == (if gone == {} then old(db) else Sweep(Remove(old(db), gone)))
        && (forall id :: id in db.events <==>
              id in old(db).events && (window.None? || RetentionCutoff(now, window.value) <= old(db).events[id].time))
        && sweptResources == |old(db).resources| - |db.resources|
      ensures error ==> window.Some? && Partly(old(db), db, RetentionCutoff(now, window.value), removed)
      ensures error <==>
        window.Some? &&
        var n := |Expired(old(db).events, RetentionCutoff(now, window.value))|;
        SomeRoundFails(fails, n) || (0 < n && sweepFails)
    {
      error, removed, sweptResources := false, 0, 0;
      if window.Some? {
        error, removed := PruneAll(RetentionCutoff(now, window.value), fails);
        if error {
          return;
        }
      }
      assert Remove(db, {}) == db;
      if 0 < removed {
        if sweepFails {
          error := true;
          return;
        }
        SweepKeepsConsistent(db);
        var before := |db.resources|;
        db := Sweep(db);
        SweptCount(old(db).resources, db.resources);
        sweptResources := before - |db.resources|;
      }
    }

    method PruneAll(cutoff: int, fails: nat -> bool) returns (error: bool, removed: nat)
      requires Consistent(db)
      modifies this
      ensures Partly(old(db), db, cutoff, removed)
      ensures !error ==> db == Remove(old(db), Expired(old(db).events, cutoff))
                         && removed == |Expired(old(db).events, cutoff)|
      ensures error <==> SomeRoundFails(fails, |Expired(old(db).events, cutoff)|)
    {
      error, removed := false, 0;
      assert Remove(db, {}) == db;
      var round := 0;
      while true
        invariant Partly(old(db), db, cutoff, removed) && removed == round * PRUNE_BATCH_ROWS
        invariant NoneFails(fails, round)
        decreases |Expired(db.events, cutoff)|
      {
        ReachedRound(fails, round, |Expired(old(db).events, cutoff)|);
        if fails(round) {
          error := true;
          return;
        }
        ghost var start := db;
        var deleted := DeleteExpired(cutoff);
        ghost var chosen :| Limited(chosen, Expired(start.events, cutoff), PRUNE_BATCH_ROWS)
                            && db == Remove(start, chosen) && deleted == |chosen|;
        RoundOfPrune(old(db), start, chosen, cutoff, removed);
        removed, round := removed + deleted, round + 1;
        if deleted < PRUNE_BATCH_ROWS {
          break;
        }
      }
    }

    /** `prune_oldest_batch`: one batch of the oldest rows; among equals any choice. */
    method EvictOldest() returns (deleted: nat)
      modifies this
      ensures exists chosen ::
                && Limited(chosen, old(db).events.Keys, PRUNE_BATCH_ROWS) && Oldest(chosen, old(db).events)
                && db == Remove(old(db), chosen) && deleted == |chosen|
    {
      ghost var some := OldestExists(db.events, PRUNE_BATCH_ROWS);
      var chosen: set<nat> :| Limited(chosen, db.events.Keys, PRUNE_BATCH_ROWS) && Oldest(chosen, db.events);
      deleted := |chosen|;
      db := Remove(db, chosen);
    }

    /** `enforce_size_quota`, for any answers of the disk: the oldest rows go first, a whole batch for every round
        that ran, the rounds end for the reason given, and nothing else changes but resources that
        lost their last event; those stay when an error ends the call. */
    method EnforceQuota(disk: Disk, sweepFails: bool)
      returns (error: bool, removed: nat, ghost gone: set<nat>, ghost rounds: nat, ghost why: Stop)
      requires Consistent(db)
      modifies this
      ensures Consistent(db)
      ensures gone <= old(db).events.Keys && Oldest(gone, old(db).events) && removed == |gone|
      ensures db == if gone == {} then old(db)
                    else if error then Remove(old(db), gone)
                    else Sweep(Remove(old(db), gone))
      ensures Stopped(why, disk, rounds, |old(db).events.Keys|)
      ensures removed == Least(rounds * PRUNE_BATCH_ROWS, |old(db).events.Keys|)
      ensures error <==> why.ConversionFailed? || why.DeleteFailed? || why.VacuumFailed? || (sweepFails && 0 < removed)
      ensures removed <= MAX_QUOTA_ROUNDS * PRUNE_BATCH_ROWS
      ensures forall n: nat :: !disk.over(n) ==> removed <= n * PRUNE_BATCH_ROWS
      ensures Smooth(disk) ==>
        forall n: nat :: FirstUnder(disk.over, n) ==> removed == Least(n * PRUNE_BATCH_ROWS, |old(db).events.Keys|)
    {
      error, removed, gone, rounds, why := false, 0, {}, 0, NotStarted;
      if !disk.checkpoints(0) {
        return;
      }
      if disk.fails(0) {
        error, why := true, ConversionFailed;
        return;
      }
      error, removed, gone, rounds, why := EvictRounds(disk);
      NothingEvicted(old(db));
      RoundsWereOver(why, disk, rounds, |old(db).events.Keys|);
      if Smooth(disk) {
        forall n: nat | FirstUnder(disk.over, n) ensures removed == Least(n * PRUNE_BATCH_ROWS, |old(db).events.Keys|) {
          QuotaIsEnforced(why, disk, rounds, |old(db).events.Keys|, n);
        }
      }
      if !error && 0 < removed {
        if sweepFails {
          error := true;
          return;
        }
        SweepKeepsConsistent(db);
        db := Sweep(db);
      }
    }

    method EvictRound(ghost first: Tables, ghost gone: set<nat>, removed: nat) returns (deleted: nat, ghost more: set<nat>)
      requires Evicted(first, db, gone, removed)
      modifies this
      ensures Evicted(first, db, more, removed + deleted)
      ensures removed <= |first.events.Keys| && deleted == Least(PRUNE_BATCH_ROWS, |first.events.Keys| - removed)
    {
      ghost var start := db;
      deleted := EvictOldest();
      ghost var chosen :| Limited(chosen, start.events.Keys, PRUNE_BATCH_ROWS) && Oldest(chosen, start.events)
                          && db == Remove(start, chosen) && deleted == |chosen|;
      LeftToEvict(first, start, gone, removed);
      RoundOfEviction(first, start, gone, chosen, removed);
      more := gone + chosen;
    }

    /** Round `i`: nothing to report if it ran to its end. */
    method RunRound(disk: Disk, i: nat, removed: nat, ghost first: Tables, ghost gone: set<nat>)
      returns (end: Option<Stop>, removed': nat, ghost gone': set<nat>)
      requires Evicted(first, db, gone, removed) && removed == Least(i * PRUNE_BATCH_ROWS, |first.events.Keys|)
      modifies this
      ensures Evicted(first, db, gone', removed') && end == RoundEnd(disk, i, |first.events.Keys|)
      ensures removed' == if end == Some(DeleteFailed) then removed else Least((i + 1) * PRUNE_BATCH_ROWS, |first.events.Keys|)
    {
      removed', gone' := removed, gone;
      if disk.fails(2 * i + 1) {
        return Some(DeleteFailed), removed', gone';
      }
      var deleted;
      deleted, gone' := EvictRound(first, gone, removed);
      removed' := removed + deleted;
      if deleted == 0 {
        return Some(NothingLeft), removed', gone';
      }
      if !disk.checkpoints(2 * i + 1) {
        return Some(CheckpointFailed), removed', gone';
      }
      if disk.fails(2 * i + 2) {
        return Some(VacuumFailed), removed', gone';
      }
      end := if disk.checkpoints(2 * i + 2) then None else Some(CheckpointFailed);
    }

    method EvictRounds(disk: Disk) returns (error: bool, removed: nat, ghost gone: set<nat>, ghost rounds: nat, ghost why: Stop)
      requires Consistent(db) && disk.checkpoints(0) && !disk.fails(0)
      modifies this
      ensures Evicted(old(db), db, gone, removed)
      ensures !why.NotStarted? && !why.ConversionFailed? && Stopped(why, disk, rounds, |old(db).events.Keys|)
      ensures removed == Least(rounds * PRUNE_BATCH_ROWS, |old(db).events.Keys|)
      ensures error <==> why.DeleteFailed? || why.VacuumFailed?
    {
      error, removed, gone, rounds, why := false, 0, {}, 0, UnderQuota;
      ghost var first, total := db, |db.events.Keys|;
      NothingEvicted(first);
      var i := 0;
      while i < MAX_QUOTA_ROUNDS && disk.over(i)
        invariant i == rounds <= MAX_QUOTA_ROUNDS && removed == Least(i * PRUNE_BATCH_ROWS, total)
        invariant Evicted(first, db, gone, removed)
        invariant AllOn(disk, i, total)
      {
        var end;
        end, removed, gone := RunRound(disk, i, removed, first, gone);
        EndOfRound(disk, i, total);
        if end.Some? {
          error, why := end.value.DeleteFailed? || end.value.VacuumFailed?, end.value;
          rounds := if why.DeleteFailed? then i else i + 1;
          return;
        }
        i, rounds := i + 1, i + 1;
      }
      if i == MAX_QUOTA_ROUNDS {
        why := RoundLimit;
      }
    }

    /** `rebuild_fts` in one transaction: it repairs any index, and leaves a sound one as it was. */
    method RebuildFts() returns (indexed: nat)
      modifies this
      ensures db == Rebuild(old(db)) && indexed == |db.index|
      ensures (forall id :: id in db.events ==> db.events[id].resource in db.resources) ==> Consistent(db) && indexed == |db.events|
      ensures Consistent(old(db)) ==> db == old(db)
    {
      if forall id :: id in db.events ==> db.events[id].resource in db.resources {
        RebuildRepairs(db);
      }
      db := Rebuild(db);
      indexed := |db.index|;
      assert |db.index| == |db.index.Keys| && |db.events| == |db.events.Keys|;
    }
  }

  // ---------------------------------------------------------------- the rounds of the quota

  /** What the disk answers: whether the file is over quota before round `i`; whether checkpoint `0`, and the two of
      round `i`, `2i+1` and `2i+2`, succeed; and whether the conversion, `0`, the delete of round `i`, `2i+1`, and its
      vacuum, `2i+2`, fail. */
  datatype Disk = Disk(over: nat -> bool, checkpoints: nat -> bool, fails: nat -> bool)

  /** Why no more rounds ran. */
  datatype Stop =
    | NotStarted | ConversionFailed | UnderQuota | RoundLimit
    | DeleteFailed | NothingLeft | CheckpointFailed | VacuumFailed

  /** Round `i` ran to its end and removed something, with `total` rows at the start. */
  predicate GoesOn(disk: Disk, i: nat, total: nat) {
    && disk.over(i) && !disk.fails(2 * i + 1) && i * PRUNE_BATCH_ROWS < total
    && disk.checkpoints(2 * i + 1) && !disk.fails(2 * i + 2) && disk.checkpoints(2 * i + 2)
  }

  predicate AllOn(disk: Disk, n: nat, total: nat) {
    forall i: nat :: i < n ==> GoesOn(disk, i, total)
  }

  /** Why a round does not run to its end, if it does not. */
  function RoundEnd(disk: Disk, i: nat, total: nat): Option<Stop> {
    if disk.fails(2 * i + 1) then Some(DeleteFailed)
    else if total <= i * PRUNE_BATCH_ROWS then Some(NothingLeft)
    else if !disk.checkpoints(2 * i + 1) then Some(CheckpointFailed)
    else if disk.fails(2 * i + 2) then Some(VacuumFailed)
    else if !disk.checkpoints(2 * i + 2) then Some(CheckpointFailed)
    else None
  }

  lemma EndOfRound(disk: Disk, i: nat, total: nat)
    requires disk.checkpoints(0) && !disk.fails(0) && i < MAX_QUOTA_ROUNDS && disk.over(i) && AllOn(disk, i, total)
    ensures
      var end := RoundEnd(disk, i, total);
      && (end.None? ==> AllOn(disk, i + 1, total))
      && (end.Some? ==> !end.value.NotStarted? && !end.value.ConversionFailed?
                        && Stopped(end.value, disk, if end.value.DeleteFailed? then i else i + 1, total))
  {
  }

  /** The deletes of `rounds` rounds ran, and then the rounds ended for this reason and no other. */
  predicate Stopped(why: Stop, disk: Disk, rounds: nat, total: nat) {
    var started := disk.checkpoints(0) && !disk.fails(0);
    match why
    case NotStarted => rounds == 0 && !disk.checkpoints(0)
    case ConversionFailed => rounds == 0 && disk.checkpoints(0) && disk.fails(0)
    case UnderQuota => started && AllOn(disk, rounds, total) && rounds < MAX_QUOTA_ROUNDS && !disk.over(rounds)
    case RoundLimit => started && AllOn(disk, rounds, total) && rounds == MAX_QUOTA_ROUNDS
    case DeleteFailed =>
      && started && AllOn(disk, rounds, total) && rounds < MAX_QUOTA_ROUNDS
      && disk.over(rounds) && disk.fails(2 * rounds + 1)
    case _ =>
      && 0 < rounds <= MAX_QUOTA_ROUNDS && started && AllOn(disk, rounds - 1, total)
      && disk.over(rounds - 1) && !disk.fails(2 * rounds - 1)
      && (if (rounds - 1) * PRUNE_BATCH_ROWS >= total then why.NothingLeft?
          else if !disk.checkpoints(2 * rounds - 1) then why.CheckpointFailed?
          else if disk.fails(2 * rounds) then why.VacuumFailed?
          else why.CheckpointFailed? && !disk.checkpoints(2 * rounds))
  }

  /** The first round before which the file is not over quota, or the limit. */
  predicate FirstUnder(over: nat -> bool, n: nat) {
    n <= MAX_QUOTA_ROUNDS && (forall i: nat :: i < n ==> over(i)) && (n == MAX_QUOTA_ROUNDS || !over(n))
  }

  lemma {:induction false} FirstUnderExists(over: nat -> bool, k: nat) returns (n: nat)
    requires k <= MAX_QUOTA_ROUNDS && forall i: nat :: i < k ==> over(i)
    ensures FirstUnder(over, n)
    decreases MAX_QUOTA_ROUNDS - k
  {
    if k == MAX_QUOTA_ROUNDS || !over(k) {
      n := k;
    } else {
      n := FirstUnderExists(over, k + 1);
    }
  }

  ghost predicate Smooth(disk: Disk) {
    forall i: nat :: disk.checkpoints(i) && !disk.fails(i)
  }

  /** Every round that ran found the file over quota. */
  lemma RoundsWereOver(why: Stop, disk: Disk, rounds: nat, total: nat)
    requires Stopped(why, disk, rounds, total)
    ensures rounds <= MAX_QUOTA_ROUNDS && forall n: nat :: !disk.over(n) ==> rounds <= n
  {
    forall i: nat | i < rounds ensures disk.over(i) {
      if why.UnderQuota? || why.RoundLimit? || why.DeleteFailed? || i < rounds - 1 {
        assert GoesOn(disk, i, total);
      }
    }
  }

  /** When nothing goes wrong, a batch goes for every time the file is over quota, until it is not, the limit is
      reached or no row is left. */
  lemma QuotaIsEnforced(why: Stop, disk: Disk, rounds: nat, total: nat, n: nat)
    requires Stopped(why, disk, rounds, total) && FirstUnder(disk.over, n) && Smooth(disk)
    ensures Least(rounds * PRUNE_BATCH_ROWS, total) == Least(n * PRUNE_BATCH_ROWS, total)
  {
    RoundsWereOver(why, disk, rounds, total);
    assert rounds <= n;
    assert rounds < n ==> disk.over(rounds);
  }

  lemma LeftToEvict(first: Tables, db: Tables, gone: set<nat>, removed: nat)
    requires Evicted(first, db, gone, removed)
    ensures removed <= |first.events.Keys| && |db.events.Keys| == |first.events.Keys| - removed
  {
    SubsetCount(gone, first.events.Keys);
    assert db.events.Keys == first.events.Keys - gone;
  }

  /** The rows `gone` left `first`, none of them newer than one that stayed. */
  ghost predicate Evicted(first: Tables, db: Tables, gone: set<nat>, removed: nat) {
    && Consistent(db) && gone <= first.events.Keys && Oldest(gone, first.events)
    && removed == |gone| && db == Remove(first, gone)
  }

  lemma NothingEvicted(db: Tables)
    requires Consistent(db)
    ensures Evicted(db, db, {}, 0)
  {
    assert db.events - {} == db.events && db.index - {} == db.index;
  }

  lemma OldestTwice(events: map<nat, LogEvent>, a: set<nat>, b: set<nat>)
    requires Oldest(a, events) && Oldest(b, events - a) && b <= (events - a).Keys
    ensures Oldest(a + b, events)
  {
    forall x, y | x in a + b && x in events && y in events && y !in a + b ensures events[x].time <= events[y].time {
      if x !in a {
        assert x in events - a && y in events - a;
      }
    }
  }

  lemma RoundOfEviction(first: Tables, start: Tables, gone: set<nat>, chosen: set<nat>, removed: nat)
    requires Evicted(first, start, gone, removed) && chosen <= start.events.Keys && Oldest(chosen, start.events)
    ensures Evicted(first, Remove(start, chosen), gone + chosen, removed + |chosen|)
  {
    OldestTwice(first.events, gone, chosen);
    RemoveTwice(first, gone, chosen);
    RemoveKeepsConsistent(start, chosen);
    assert gone !! chosen;
  }

  /** Some of the expired rows of `first` are gone, and `removed` counts them. */
  ghost predicate Partly(first: Tables, db: Tables, cutoff: int, removed: nat) {
    var all, left := Expired(first.events, cutoff), Expired(db.events, cutoff);
    Consistent(db) && left <= all && removed == |all| - |left| && db == Remove(first, all - left)
  }

  lemma SweptCount(before: map<nat, nat>, after: map<nat, nat>)
    requires after.Keys <= before.Keys
    ensures |after| <= |before|
  {
    SubsetCount(after.Keys, before.Keys);
    assert |after| == |after.Keys| && |before| == |before.Keys|;
  }

  lemma {:induction false} SubsetCount(a: set<nat>, b: set<nat>)
    requires a <= b
    ensures |b - a| == |b| - |a| && |a| <= |b|
  {
    assert b == a + (b - a);
  }

  lemma SetParts(all: set<nat>, left: set<nat>, chosen: set<nat>)
    requires chosen <= left <= all
    ensures (all - left) + chosen == all - (left - chosen)
    ensures left - chosen <= all && |left - chosen| == |left| - |chosen|
    ensures |chosen| == |left| ==> all - (left - chosen) == all
  {
    SubsetCount(chosen, left);
  }

  lemma RoundRemoves(first: Tables, start: Tables, all: set<nat>, left: set<nat>, chosen: set<nat>)
    requires chosen <= left <= all && start == Remove(first, all - left)
    ensures Remove(start, chosen) == Remove(first, all - (left - chosen))
  {
    SetParts(all, left, chosen);
    RemoveTwice(first, all - left, chosen);
  }

  /** What one round of deletes does: it makes progress, and a short round was the last one. */
  lemma RoundOfPrune(first: Tables, start: Tables, chosen: set<nat>, cutoff: int, removed: nat)
    requires Partly(first, start, cutoff, removed) && Limited(chosen, Expired(start.events, cutoff), PRUNE_BATCH_ROWS)
    ensures
      var db := Remove(start, chosen);
      && Partly(first, db, cutoff, removed + |chosen|)
      && |Expired(db.events, cutoff)| == |Expired(start.events, cutoff)| - |chosen|
      && (|chosen| < PRUNE_BATCH_ROWS ==> db == Remove(first, Expired(first.events, cutoff))
                                          && removed + |chosen| == |Expired(first.events, cutoff)|)
  {
    var all, left := Expired(first.events, cutoff), Expired(start.events, cutoff);
    assert Expired(Remove(start, chosen).events, cutoff) == left - chosen by {
      ExpiredAfter(start, chosen, cutoff);
    }
    assert Consistent(Remove(start, chosen)) by {
      RemoveKeepsConsistent(start, chosen);
    }
    SetParts(all, left, chosen);
    RoundRemoves(first, start, all, left, chosen);
  }

  /** Round `r` of the deletes is reached when the rounds before it were full, and it fails. */
  predicate RoundFails(fails: nat -> bool, r: nat, total: nat) {
    r * PRUNE_BATCH_ROWS <= total && fails(r)
  }

  ghost predicate SomeRoundFails(fails: nat -> bool, total: nat) {
    exists r: nat :: RoundFails(fails, r, total)
  }

  predicate NoneFails(fails: nat -> bool, n: nat) {
    forall r: nat :: r < n ==> !fails(r)
  }

  lemma ReachedRound(fails: nat -> bool, round: nat, total: nat)
    requires NoneFails(fails, round) && round * PRUNE_BATCH_ROWS <= total
    ensures fails(round) ==> SomeRoundFails(fails, total)
    ensures !fails(round) ==> NoneFails(fails, round + 1)
    ensures !fails(round) && total < (round + 1) * PRUNE_BATCH_ROWS ==> !SomeRoundFails(fails, total)
  {
    if fails(round) {
      assert RoundFails(fails, round, total);
    }
  }

  lemma ExpiredAfter(db: Tables, chosen: set<nat>, cutoff: int)
    ensures Expired(Remove(db, chosen).events, cutoff) == Expired(db.events, cutoff) - chosen
  {
  }

  lemma RemoveTwice(db: Tables, a: set<nat>, b: set<nat>)
    ensures Remove(Remove(db, a), b) == Remove(db, a + b)
  {
    assert (db.events - a) - b == db.events - (a + b);
    assert (db.index - a) - b == db.index - (a + b);
  }
}
