/** The batcher thread as an object: each event it handles is one step of the pipeline. */
module Batcher {
  import opened Ledger
  import opened Stream
  import opened InsertBatching
  import opened OriginBatching
  import opened Protocol

  function Fitting(room: nat, n: nat): nat {
    if room < n then room else n
  }

  function Buffered(entries: seq<Entry>): nat {
    if entries == [] then 0 else |entries[0].buffer.records| + Buffered(entries[1..])
  }

  class BatcherDriver {
    const buffers: OriginBuffers
    const ledger: CommitLedger
    var alive: bool
    /** What has entered the command queue. */
    var submitted: seq<Command>

    ghost predicate Valid()
      reads this, buffers
    {
      buffers.Valid()
    }

    constructor (cfg: Config, ledger: CommitLedger)
      requires 0 < cfg.maxRecords
      ensures Valid() && fresh(buffers) && this.ledger == ledger && buffers.cfg == cfg
      ensures alive && submitted == [] && buffers.buffers == []
    {
      buffers := new OriginBuffers(cfg);
      this.ledger := ledger;
      alive, submitted := true, [];
    }

    /** The driver stands for the batcher of a pipeline state. */
    ghost predicate Stands(c: Constants, s: State)
      reads this, buffers, ledger
    {
      Valid() && c.cfg == buffers.cfg && s.entries == buffers.buffers && s.book == ledger.View() && s.outbox == []
    }

    /** Sends the batches in order; the writer takes `room` commands before it disappears. */
    method SubmitAll(subs: seq<Submission>, room: nat)
      modifies this`alive, this`submitted
      ensures submitted == old(submitted) + Inserts(subs)[..Fitting(room, |subs|)]
      ensures alive == (old(alive) && |subs| <= room)
    {
      for k := 0 to |subs|
        invariant submitted == old(submitted) + Inserts(subs)[..Fitting(room, k)]
        invariant alive == (old(alive) && k <= room)
      {
        if k < room {
          submitted := submitted + [Insert(subs[k])];
        } else {
          alive := false;
        }
      }
    }

    method FlushBuffers(when: Option<nat>, room: nat) returns (emitted: nat)
      requires Valid()
      modifies this`alive, this`submitted, buffers
      ensures Valid()
      ensures when.Some? ==> forall e :: e in old(buffers.buffers) ==>
                (e in buffers.buffers <==> e.buffer.deadline.None? || when.value < e.buffer.deadline.value)
      ensures
        var (subs, after) := FlushEntries(old(buffers.buffers), when);
        && buffers.buffers == after && emitted == |subs| && alive == (old(alive) && |subs| <= room)
        && submitted == old(submitted) + Inserts(subs)[..Fitting(room, |subs|)]
    {
      var subs := buffers.FlushWith(when);
      SubmitAll(subs, room);
      emitted := |subs|;
    }

    /** The age deadline expired: the step `DoFlush`. */
    method OnTimer(now: nat, room: nat, ghost c: Constants, ghost s: State)
      requires Stands(c, s)
      modifies this`alive, this`submitted, buffers
      ensures Valid()
      ensures Usable(c, s)
      ensures
        var s' := DoFlush(c, s, Some(now));
        && (forall e :: e in s.entries ==> (e in buffers.buffers <==> e.buffer.deadline.None? || now < e.buffer.deadline.value))
        && s'.entries == buffers.buffers && alive == (old(alive) && |s'.outbox| <= room)
        && submitted == old(submitted) + s'.outbox[..Fitting(room, |s'.outbox|)]
    {
      var _ := FlushBuffers(Some(now), room);
    }

    /** An empty chunk has nothing to persist: its ticket is voided. */
    method VoidEmpty(ticket: nat)
      modifies ledger
      ensures old(ledger.UpToDate()) ==> ledger.UpToDate()
      ensures ledger.View() == if IsSettled(old(ledger.View()), ticket) then old(ledger.View()) else Apply(old(ledger.View()), Void(ticket))
    {
      var settled, watermark := ledger.SettleLocked(ticket, true);
      if settled {
        ledger.Publish(watermark);
      }
    }

    /** A chunk arrived: the step `DoIngest`. */
    method OnChunk(origin: Origin, ticket: nat, size: nat, clock: nat -> nat, room: nat, ghost c: Constants, ghost s: State)
      requires Stands(c, s) && s.queue != [] && s.queue[0] == Logs(origin, ticket, size)
      modifies this`alive, this`submitted, buffers, ledger
      ensures old(ledger.UpToDate()) ==> ledger.UpToDate()
      ensures Valid()
      ensures Usable(c, s)
      ensures
        var s' := DoIngest(c, s, clock);
        && s'.entries == buffers.buffers && s'.book == ledger.View() && alive == (old(alive) && |s'.outbox| <= room)
        && submitted == old(submitted) + s'.outbox[..Fitting(room, |s'.outbox|)]
    {
      if size == 0 {
        VoidEmpty(ticket);
      } else {
        var subs := buffers.Push(origin, Named(ticket, size), ticket, clock);
        SubmitAll(subs, room);
      }
    }

    /** A flush arrived: the partial batches go first, then the barrier. */
    method OnFlush(bound: nat, clock: nat -> nat, room: nat, ghost c: Constants, ghost s: State)
      requires Stands(c, s) && s.queue != [] && s.queue[0] == Barrier(bound) && alive
      modifies this`alive, this`submitted, buffers
      ensures Valid()
      ensures Usable(c, s)
      ensures
        var s' := DoIngest(c, s, clock);
        && s'.entries == buffers.buffers && s'.book == ledger.View() && alive == (|s'.outbox| <= room)
        && submitted == old(submitted) + s'.outbox[..Fitting(room, |s'.outbox|)]
    {
      var emitted := FlushBuffers(None, room);
      if alive {
        if emitted < room {
          submitted := submitted + [Flush(bound)];
        } else {
          alive := false;
        }
      }
    }

    /** The thread ends. With the writer there, every buffer leaves first: the step `Drain`. Without it, what
        is buffered is abandoned and the ledger closed: the step `CloseLedger`. */
    method OnExit(room: nat, ghost c: Constants, ghost s: State) returns (abandoned: nat)
      requires Stands(c, s)
      modifies this`alive, this`submitted, buffers, ledger
      ensures old(ledger.UpToDate()) ==> ledger.UpToDate()
      ensures Valid()
      ensures Usable(c, s)
      ensures old(alive) ==>
        var s' := DoFlush(c, s, None);
        && s'.entries == buffers.buffers == [] && abandoned == 0 && alive == (|s'.outbox| <= room)
        && submitted == old(submitted) + s'.outbox[..Fitting(room, |s'.outbox|)]
      ensures !old(alive) ==>
        !alive && submitted == old(submitted) && buffers.buffers == s.entries && abandoned == Buffered(s.entries)
      ensures ledger.View() == if alive then s.book else DoClose(s).book
    {
      FlushKeepsValid(buffers.buffers, None);
      if alive {
        var _ := FlushBuffers(None, room);
      }
      abandoned := 0;
      if !alive {
        abandoned := Buffered(buffers.buffers);
        var watermark := ledger.CloseLocked();
        ledger.Publish(watermark);
      }
    }
  }
}
