/** The maintenance scheduler over runs of ticks. Instants and durations are nanosecond counts. */
module Scheduler {
  import opened Clock
  import opened InsertBatching

  datatype Operation = Purge | Checkpoint | Optimize | Vacuum | RebuildFts

  datatype Answer = Sent | Full | Closed

  datatype Task = Task(operation: Operation, interval: Option<nat>, nextDue: Option<nat>, deferred: bool)

  datatype Config = Config(
    retention: Option<nat>,
    purge: Option<nat>,
    checkpoint: Option<nat>,
    optimize: Option<nat>,
    vacuum: Option<nat>,
    rebuildFts: Option<nat>,
    retryDelay: nat)

  const MIN_RETRY_DELAY: nat := 10_000_000

  /** The clamped retry delay and the last representable instant. */
  datatype Rules = Rules(retry: nat, horizon: nat)

  function Enabled(interval: Option<nat>): Option<nat> {
    if interval == Some(0) then None else interval
  }

  function NewTask(operation: Operation, interval: Option<nat>, now: nat, horizon: nat): Task
    requires now <= horizon
  {
    var i := Enabled(interval);
    Task(operation, i, if i.None? then None else Some(SaturatingDeadline(now, i.value, horizon)), false)
  }

  function RulesOf(config: Config, horizon: nat): Rules {
    Rules(if config.retryDelay < MIN_RETRY_DELAY then MIN_RETRY_DELAY else config.retryDelay, horizon)
  }

  /** Five tasks, each first due one interval after the start; no purge without a retention window. */
  function NewTasks(config: Config, now: nat, horizon: nat): seq<Task>
    requires now <= horizon
  {
    [ NewTask(Purge, if config.retention.None? then None else config.purge, now, horizon),
      NewTask(Checkpoint, config.checkpoint, now, horizon),
      NewTask(Optimize, config.optimize, now, horizon),
      NewTask(Vacuum, config.vacuum, now, horizon),
      NewTask(RebuildFts, config.rebuildFts, now, horizon) ]
  }

  predicate Due(task: Task, now: nat) {
    task.nextDue.Some? && task.nextDue.value <= now
  }

  function Reschedule(task: Task, now: nat, rules: Rules): Task
    requires now <= rules.horizon
  {
    Task(task.operation, task.interval,
         if task.interval.None? then task.nextDue else Some(SaturatingDeadline(now, task.interval.value, rules.horizon)),
         false)
  }

  function Defer(task: Task, now: nat, rules: Rules): Task
    requires now <= rules.horizon
  {
    Task(task.operation, task.interval, Some(SaturatingDeadline(now, rules.retry, rules.horizon)), true)
  }

  /** One attempt that the queue did not answer with `Closed`. */
  datatype Event = Event(task: nat, time: nat, sent: bool)

  /** A tick from task `k` on: the tasks afterwards, the attempts made, and whether the queue was gone. */
  function Tick(tasks: seq<Task>, k: nat, now: nat, answers: nat -> Answer, rules: Rules): (seq<Task>, seq<Event>, bool)
    requires k <= |tasks| && now <= rules.horizon
    decreases |tasks| - k
  {
    if k == |tasks| then (tasks, [], false)
    else if !Due(tasks[k], now) then Tick(tasks, k + 1, now, answers, rules)
    else
      match answers(k)
      case Sent =>
        var (after, events, gone) := Tick(tasks[k := Reschedule(tasks[k], now, rules)], k + 1, now, answers, rules);
        (after, [Event(k, now, true)] + events, gone)
      case Full =>
        var (after, events, gone) := Tick(tasks[k := Defer(tasks[k], now, rules)], k + 1, now, answers, rules);
        (after, [Event(k, now, false)] + events, gone)
      case Closed => (tasks, [], true)
  }

  /** A deadline has come at that very instant, and not before; what has no deadline is never due. */
  predicate DueAt(deadline: Option<nat>, now: nat) {
    match deadline
    case None => false
    case Some(instant) => !(now < instant)
  }

  /** The tasks of a tick are reached from `k` up to `end`: there the queue is found closed, or the tasks end. */
  predicate EndsAt(tasks: seq<Task>, k: nat, now: nat, answers: nat -> Answer, end: nat) {
    && k <= end <= |tasks|
    && (forall j: nat :: k <= j < end && DueAt(tasks[j].nextDue, now) ==> !answers(j).Closed?)
    && (end < |tasks| ==> DueAt(tasks[end].nextDue, now) && answers(end).Closed?)
  }

  function Attempted(task: Task, now: nat, sent: bool, rules: Rules): Task
    requires now <= rules.horizon
  {
    if sent then Reschedule(task, now, rules) else Defer(task, now, rules)
  }

  /** What a tick does: every due task that is reached is attempted once, in order, and rescheduled or deferred; all
      others stay as they are; a closed queue ends the tick and is reported. */
  ghost predicate TicksRight(
    tasks: seq<Task>, k: nat, now: nat, answers: nat -> Answer, rules: Rules, end: nat,
    after: seq<Task>, events: seq<Event>, gone: bool)
    requires k <= end <= |tasks| && now <= rules.horizon
  {
    && gone == (end < |tasks|) && |after| == |tasks|
    && (forall i: nat :: i < |tasks| ==>
          after[i] == if k <= i < end && DueAt(tasks[i].nextDue, now) then Attempted(tasks[i], now, answers(i).Sent?, rules) else tasks[i])
    && (forall i: nat :: k <= i < end && DueAt(tasks[i].nextDue, now) ==> Event(i, now, answers(i).Sent?) in events)
    && (forall j :: 0 <= j < |events| ==>
          var e := events[j];
          k <= e.task < end && DueAt(tasks[e.task].nextDue, now) && e == Event(e.task, now, answers(e.task).Sent?))
    && (forall i, j :: 0 <= i < j < |events| ==> events[i].task < events[j].task)
  }

  lemma {:induction false} TickIsRight(tasks: seq<Task>, k: nat, now: nat, answers: nat -> Answer, rules: Rules, end: nat)
    requires EndsAt(tasks, k, now, answers, end) && now <= rules.horizon
    ensures
      var (after, events, gone) := Tick(tasks, k, now, answers, rules);
      TicksRight(tasks, k, now, answers, rules, end, after, events, gone)
    decreases |tasks| - k
  {
    if k < end {
      if Due(tasks[k], now) {
        var tasks' := tasks[k := Attempted(tasks[k], now, answers(k).Sent?, rules)];
        TickIsRight(tasks', k + 1, now, answers, rules, end);
        var (after, events, gone) := Tick(tasks', k + 1, now, answers, rules);
        FirstAttempt(tasks, k, now, answers, rules, end, after, events, gone);
      } else {
        TickIsRight(tasks, k + 1, now, answers, rules, end);
      }
    }
  }

  lemma FirstAttempt(
    tasks: seq<Task>, k: nat, now: nat, answers: nat -> Answer, rules: Rules, end: nat,
    after: seq<Task>, events: seq<Event>, gone: bool)
    requires k < end <= |tasks| && now <= rules.horizon && Due(tasks[k], now)
    requires TicksRight(tasks[k := Attempted(tasks[k], now, answers(k).Sent?, rules)], k + 1, now, answers, rules, end,
                        after, events, gone)
    ensures TicksRight(tasks, k, now, answers, rules, end, after, [Event(k, now, answers(k).Sent?)] + events, gone)
  {
    var all := [Event(k, now, answers(k).Sent?)] + events;
    assert all[0] == Event(k, now, answers(k).Sent?);
    forall i: nat | k <= i < end && Due(tasks[i], now) ensures Event(i, now, answers(i).Sent?) in all {
      if k < i {
        assert Event(i, now, answers(i).Sent?) in events;
      }
    }
  }

  lemma {:induction false} EndExists(tasks: seq<Task>, k: nat, now: nat, answers: nat -> Answer) returns (end: nat)
    requires k <= |tasks|
    ensures EndsAt(tasks, k, now, answers, end)
    decreases |tasks| - k
  {
    if k == |tasks| || (Due(tasks[k], now) && answers(k).Closed?) {
      end := k;
    } else {
      end := EndExists(tasks, k + 1, now, answers);
    }
  }

  function Count(events: seq<Event>, sent: bool): nat {
    if events == [] then 0 else (if events[0].sent == sent then 1 else 0) + Count(events[1..], sent)
  }

  lemma {:induction false} CountSnoc(events: seq<Event>, e: Event, sent: bool)
    ensures Count(events + [e], sent) == Count(events, sent) + if e.sent == sent then 1 else 0
  {
    if events == [] {
      assert events + [e] == [e];
    } else {
      CountSnoc(events[1..], e, sent);
      assert (events + [e])[1..] == events[1..] + [e];
    }
  }

  function ConfiguredFor(config: Config, op: Operation): Option<nat> {
    match op
    case Purge => config.purge
    case Checkpoint => config.checkpoint
    case Optimize => config.optimize
    case Vacuum => config.vacuum
    case RebuildFts => config.rebuildFts
  }

  /** Whether the configuration asks for an operation at all. */
  predicate Wanted(config: Config, op: Operation) {
    && ConfiguredFor(config, op).Some? && ConfiguredFor(config, op).value != 0
    && (op.Purge? ==> config.retention.Some?)
  }

  /** Every wanted operation has exactly one task, which comes due one interval after the start and not
      before; nothing else ever comes due; refusals wait at least the floor and at least what
      the configuration says. */
  predicate StartsAs(config: Config, now: nat, rules: Rules, tasks: seq<Task>) {
    && MIN_RETRY_DELAY <= rules.retry && config.retryDelay <= rules.retry
    && (rules.retry == MIN_RETRY_DELAY || rules.retry == config.retryDelay)
    && (forall op: Operation :: Has(tasks, op))
    && (forall i, j :: 0 <= i < j < |tasks| ==> tasks[i].operation != tasks[j].operation)
    && (forall i :: 0 <= i < |tasks| ==> StartsRight(config, now, rules.horizon, tasks[i]))
  }

  predicate Has(tasks: seq<Task>, op: Operation) {
    exists i :: 0 <= i < |tasks| && tasks[i].operation == op
  }

  predicate StartsRight(config: Config, now: nat, horizon: nat, task: Task) {
    && !task.deferred
    && (if Wanted(config, task.operation) then task.interval == ConfiguredFor(config, task.operation) else task.interval.None?)
    && (task.nextDue.Some? <==> Wanted(config, task.operation))
    && (task.nextDue.Some? && now + task.interval.value <= horizon ==> task.nextDue.value == now + task.interval.value)
    && (task.nextDue.Some? && now < horizon ==> now < task.nextDue.value)
  }

  lemma NewTaskStartsRight(config: Config, op: Operation, interval: Option<nat>, now: nat, horizon: nat)
    requires now <= horizon
    requires interval == if op.Purge? && config.retention.None? then None else ConfiguredFor(config, op)
    ensures StartsRight(config, now, horizon, NewTask(op, interval, now, horizon))
  {
  }

  lemma StartsAsConfigured(config: Config, now: nat, horizon: nat)
    requires now <= horizon
    ensures StartsAs(config, now, RulesOf(config, horizon), NewTasks(config, now, horizon))
  {
    var tasks := NewTasks(config, now, horizon);
    NewTaskStartsRight(config, Purge, if config.retention.None? then None else config.purge, now, horizon);
    NewTaskStartsRight(config, Checkpoint, config.checkpoint, now, horizon);
    NewTaskStartsRight(config, Optimize, config.optimize, now, horizon);
    NewTaskStartsRight(config, Vacuum, config.vacuum, now, horizon);
    NewTaskStartsRight(config, RebuildFts, config.rebuildFts, now, horizon);
    AllThere(tasks);
  }

  lemma AllThere(tasks: seq<Task>)
    requires |tasks| == 5 && tasks[0].operation.Purge? && tasks[1].operation.Checkpoint?
    requires tasks[2].operation.Optimize? && tasks[3].operation.Vacuum? && tasks[4].operation.RebuildFts?
    ensures forall op: Operation :: Has(tasks, op)
  {
    forall op: Operation ensures Has(tasks, op) {
      var i := match op case Purge => 0 case Checkpoint => 1 case Optimize => 2 case Vacuum => 3 case RebuildFts => 4;
      assert tasks[i].operation == op;
    }
  }

  class MaintenanceScheduler {
    const rules: Rules
    var tasks: seq<Task>

    constructor (config: Config, now: nat, horizon: nat)
      requires now <= horizon
      ensures rules == RulesOf(config, horizon) && tasks == NewTasks(config, now, horizon)
      ensures StartsAs(config, now, rules, tasks)
    {
      rules := RulesOf(config, horizon);
      tasks := NewTasks(config, now, horizon);
      new;
      StartsAsConfigured(config, now, horizon);
    }

    /** `tick`: enqueues every operation that is due. */
    method RunTick(now: nat, answers: nat -> Answer)
      returns (scheduled: nat, deferred: nat, disconnected: bool, ghost events: seq<Event>)
      requires now <= rules.horizon
      modifies this`tasks
      ensures (tasks, events, disconnected) == Tick(old(tasks), 0, now, answers, rules)
      ensures scheduled == Count(events, true) && deferred == Count(events, false)
    {
      scheduled, deferred, disconnected, events := 0, 0, false, [];
      ghost var goal := Tick(tasks, 0, now, answers, rules);
      var k := 0;
      while k < |tasks|
        invariant k <= |tasks| == |old(tasks)| && !disconnected
        invariant
          var (after, later, gone) := Tick(tasks, k, now, answers, rules);
          goal.0 == after && goal.1 == events + later && goal.2 == gone
        invariant scheduled == Count(events, true) && deferred == Count(events, false)
      {
        if Due(tasks[k], now) {
          match answers(k) {
            case Sent =>
              CountSnoc(events, Event(k, now, true), true);
              CountSnoc(events, Event(k, now, true), false);
              tasks := tasks[k := Reschedule(tasks[k], now, rules)];
              scheduled, events := scheduled + 1, events + [Event(k, now, true)];
            case Full =>
              CountSnoc(events, Event(k, now, false), true);
              CountSnoc(events, Event(k, now, false), false);
              tasks := tasks[k := Defer(tasks[k], now, rules)];
              deferred, events := deferred + 1, events + [Event(k, now, false)];
            case Closed =>
              disconnected := true;
              assert goal.1 == events;
              return;
          }
        }
        k := k + 1;
      }
      assert goal.1 == events;
    }

    /** `next_deadline`: the earliest instant some task becomes due. */
    method NextDeadline() returns (r: Option<nat>)
      ensures r.None? <==> forall i :: 0 <= i < |tasks| ==> tasks[i].nextDue.None?
      ensures r.Some? ==> forall i :: 0 <= i < |tasks| && tasks[i].nextDue.Some? ==> r.value <= tasks[i].nextDue.value
      ensures r.Some? ==> exists i :: 0 <= i < |tasks| && tasks[i].nextDue == r
    {
      r := None;
      for k := 0 to |tasks|
        invariant r.None? <==> forall i :: 0 <= i < k ==> tasks[i].nextDue.None?
        invariant r.Some? ==> forall i :: 0 <= i < k && tasks[i].nextDue.Some? ==> r.value <= tasks[i].nextDue.value
        invariant r.Some? ==> exists i :: 0 <= i < k && tasks[i].nextDue == r
      {
        var due := tasks[k].nextDue;
        if due.Some? && (r.None? || due.value < r.value) {
          r := due;
        }
      }
    }
  }

  // ---------------------------------------------------------------- runs

  datatype TickInput = TickInput(now: nat, answers: nat -> Answer)

  /** The tasks after a run of ticks and every attempt made on the way. */
  function RunTicks(tasks: seq<Task>, inputs: seq<TickInput>, rules: Rules): (seq<Task>, seq<Event>)
    requires forall i :: 0 <= i < |inputs| ==> inputs[i].now <= rules.horizon
  {
    if inputs == [] then (tasks, [])
    else
      var n := |inputs| - 1;
      var (before, log) := RunTicks(tasks, inputs[..n], rules);
      var (after, events, _) := Tick(before, 0, inputs[n].now, inputs[n].answers, rules);
      (after, log + events)
  }

  function Last(log: seq<Event>, k: nat): Option<Event> {
    if log == [] then None
    else if log[|log| - 1].task == k then Some(log[|log| - 1])
    else Last(log[..|log| - 1], k)
  }

  lemma {:induction false} LastSnoc(log: seq<Event>, e: Event, k: nat)
    ensures Last(log + [e], k) == if e.task == k then Some(e) else Last(log, k)
  {
    assert (log + [e])[..|log|] == log;
  }

  function Deadline(now: nat, after: nat, rules: Rules): nat {
    if now <= rules.horizon then SaturatingDeadline(now, after, rules.horizon) else now
  }

  /** When a task may be attempted next, given its last attempt. */
  function NextAttempt(interval: nat, last: Option<Event>, start: nat, rules: Rules): nat {
    if last.None? then Deadline(start, interval, rules)
    else Deadline(last.value.time, if last.value.sent then interval else rules.retry, rules)
  }

  /** A task knows exactly when its next attempt may be; a disabled one is never attempted. */
  predicate Tracks(task: Task, last: Option<Event>, start: nat, rules: Rules) {
    if task.interval.None? then task.nextDue.None? && last.None?
    else
      && 0 < task.interval.value
      && task.nextDue == Some(NextAttempt(task.interval.value, last, start, rules))
      && task.deferred == (last.Some? && !last.value.sent)
  }

  predicate AllTrack(tasks: seq<Task>, log: seq<Event>, start: nat, rules: Rules) {
    forall k :: 0 <= k < |tasks| ==> Tracks(tasks[k], Last(log, k), start, rules)
  }

  function Intervals(tasks: seq<Task>): (r: seq<Option<nat>>)
    ensures |r| == |tasks| && forall k :: 0 <= k < |r| ==> r[k] == tasks[k].interval
  {
    seq(|tasks|, k requires 0 <= k < |tasks| => tasks[k].interval)
  }

  /** The event at `j` was not early. */
  predicate OnTime(log: seq<Event>, j: nat, intervals: seq<Option<nat>>, start: nat, rules: Rules)
    requires j < |log|
  {
    var e := log[j];
    && e.task < |intervals| && intervals[e.task].Some? && 0 < intervals[e.task].value
    && NextAttempt(intervals[e.task].value, Last(log[..j], e.task), start, rules) <= e.time
  }

  predicate Spaced(log: seq<Event>, intervals: seq<Option<nat>>, start: nat, rules: Rules) {
    forall j :: 0 <= j < |log| ==> OnTime(log, j, intervals, start, rules)
  }

  ghost predicate Good(tasks: seq<Task>, log: seq<Event>, intervals: seq<Option<nat>>, start: nat, rules: Rules) {
    AllTrack(tasks, log, start, rules) && Spaced(log, intervals, start, rules) && Intervals(tasks) == intervals
  }

  lemma SpacedSnoc(log: seq<Event>, e: Event, intervals: seq<Option<nat>>, start: nat, rules: Rules)
    requires Spaced(log, intervals, start, rules) && OnTime(log + [e], |log|, intervals, start, rules)
    ensures Spaced(log + [e], intervals, start, rules)
  {
    forall j | 0 <= j < |log + [e]| ensures OnTime(log + [e], j, intervals, start, rules) {
      if j < |log| {
        assert OnTime(log, j, intervals, start, rules);
        assert (log + [e])[..j] == log[..j];
      }
    }
  }

  /** One attempt on a due task. */
  lemma AttemptKeepsGood(
    tasks: seq<Task>, log: seq<Event>, intervals: seq<Option<nat>>, start: nat, rules: Rules, k: nat, now: nat, sent: bool)
    requires Good(tasks, log, intervals, start, rules) && k < |tasks| && Due(tasks[k], now) && now <= rules.horizon
    ensures Good(tasks[k := Attempted(tasks[k], now, sent, rules)], log + [Event(k, now, sent)], intervals, start, rules)
  {
    var e, tasks' := Event(k, now, sent), tasks[k := Attempted(tasks[k], now, sent, rules)];
    assert Tracks(tasks[k], Last(log, k), start, rules);
    forall i | 0 <= i < |tasks'| ensures Tracks(tasks'[i], Last(log + [e], i), start, rules) {
      LastSnoc(log, e, i);
      assert Tracks(tasks[i], Last(log, i), start, rules);
    }
    assert (log + [e])[..|log|] == log;
    SpacedSnoc(log, e, intervals, start, rules);
    assert Intervals(tasks') == Intervals(tasks);
  }

  lemma {:induction false} TickKeepsGood(
    tasks: seq<Task>, log: seq<Event>, intervals: seq<Option<nat>>, start: nat, rules: Rules,
    k: nat, now: nat, answers: nat -> Answer)
    requires Good(tasks, log, intervals, start, rules) && k <= |tasks| && now <= rules.horizon
    ensures
      var (after, events, _) := Tick(tasks, k, now, answers, rules);
      Good(after, log + events, intervals, start, rules)
    decreases |tasks| - k
  {
    if k == |tasks| || (Due(tasks[k], now) && answers(k).Closed?) {
      assert log + [] == log;
    } else if !Due(tasks[k], now) {
      TickKeepsGood(tasks, log, intervals, start, rules, k + 1, now, answers);
    } else {
      var sent := answers(k).Sent?;
      var e, tasks' := Event(k, now, sent), tasks[k := Attempted(tasks[k], now, sent, rules)];
      AttemptKeepsGood(tasks, log, intervals, start, rules, k, now, sent);
      TickKeepsGood(tasks', log + [e], intervals, start, rules, k + 1, now, answers);
      var events := Tick(tasks', k + 1, now, answers, rules).1;
      assert log + [e] + events == log + ([e] + events);
    }
  }

  lemma NewTasksAreGood(config: Config, start: nat, horizon: nat)
    requires start <= horizon
    ensures
      var tasks := NewTasks(config, start, horizon);
      Good(tasks, [], Intervals(tasks), start, RulesOf(config, horizon))
  {
    var tasks := NewTasks(config, start, horizon);
    forall k | 0 <= k < |tasks| ensures Tracks(tasks[k], Last([], k), start, RulesOf(config, horizon)) {
    }
  }

  lemma {:induction false} RunKeepsGood(
    tasks: seq<Task>, inputs: seq<TickInput>, intervals: seq<Option<nat>>, start: nat, rules: Rules)
    requires Good(tasks, [], intervals, start, rules)
    requires forall i :: 0 <= i < |inputs| ==> inputs[i].now <= rules.horizon
    ensures
      var (after, log) := RunTicks(tasks, inputs, rules);
      Good(after, log, intervals, start, rules)
  {
    if inputs != [] {
      var n := |inputs| - 1;
      RunKeepsGood(tasks, inputs[..n], intervals, start, rules);
      var (before, log) := RunTicks(tasks, inputs[..n], rules);
      TickKeepsGood(before, log, intervals, start, rules, 0, inputs[n].now, inputs[n].answers);
    }
  }

  // ---------------------------------------------------------------- time along the log

  predicate Ordered(inputs: seq<TickInput>) {
    forall i, j :: 0 <= i < j < |inputs| ==> inputs[i].now <= inputs[j].now
  }

  predicate TimesOrdered(log: seq<Event>) {
    forall i, j :: 0 <= i < j < |log| ==> log[i].time <= log[j].time
  }

  lemma {:induction false} TickHappensNow(tasks: seq<Task>, k: nat, now: nat, answers: nat -> Answer, rules: Rules)
    requires k <= |tasks| && now <= rules.horizon
    ensures forall e :: e in Tick(tasks, k, now, answers, rules).1 ==> e.time == now
    decreases |tasks| - k
  {
    if k < |tasks| {
      if !Due(tasks[k], now) {
        TickHappensNow(tasks, k + 1, now, answers, rules);
      } else if !answers(k).Closed? {
        TickHappensNow(tasks[k := Attempted(tasks[k], now, answers(k).Sent?, rules)], k + 1, now, answers, rules);
      }
    }
  }

  lemma {:induction false} LogIsOrdered(tasks: seq<Task>, inputs: seq<TickInput>, rules: Rules)
    requires Ordered(inputs) && forall i :: 0 <= i < |inputs| ==> inputs[i].now <= rules.horizon
    ensures
      var log := RunTicks(tasks, inputs, rules).1;
      TimesOrdered(log) && forall e :: e in log ==> inputs != [] && e.time <= inputs[|inputs| - 1].now
  {
    if inputs != [] {
      var n := |inputs| - 1;
      LogIsOrdered(tasks, inputs[..n], rules);
      var (before, log) := RunTicks(tasks, inputs[..n], rules);
      TickHappensNow(before, 0, inputs[n].now, inputs[n].answers, rules);
      LaterEvents(log, Tick(before, 0, inputs[n].now, inputs[n].answers, rules).1, inputs[n].now);
    }
  }

  lemma LaterEvents(log: seq<Event>, events: seq<Event>, now: nat)
    requires TimesOrdered(log) && (forall e :: e in log ==> e.time <= now) && forall e :: e in events ==> e.time == now
    ensures TimesOrdered(log + events) && forall e :: e in log + events ==> e.time <= now
  {
    var all := log + events;
    forall i, j | 0 <= i < j < |all| ensures all[i].time <= all[j].time {
      assert i < |log| ==> log[i] in log;
      assert |log| <= i ==> all[i] in events;
      assert |log| <= j ==> all[j] in events;
    }
  }

  /** The first attempt on a task after the one at `i`. */
  lemma {:induction false} FirstAfter(log: seq<Event>, i: nat, j: nat) returns (m: nat)
    requires i < j < |log| && log[i].task == log[j].task
    ensures i < m <= j && log[m].task == log[i].task && Last(log[..m], log[i].task) == Some(log[i])
    decreases j - i
  {
    if q: nat :| i < q < j && log[q].task == log[i].task {
      m := FirstAfter(log, i, q);
    } else {
      LastIs(log, i, j);
      m := j;
    }
  }

  lemma {:induction false} LastIs(log: seq<Event>, i: nat, j: nat)
    requires i < j <= |log| && forall q :: i < q < j ==> log[q].task != log[i].task
    ensures Last(log[..j], log[i].task) == Some(log[i])
    decreases j
  {
    assert log[..j][..j - 1] == log[..j - 1];
    if i < j - 1 {
      LastIs(log, i, j - 1);
    }
  }

  /** After an attempt on a task, the next ones keep their distance: an interval after a success,
      the retry delay after a refusal. */
  lemma AttemptsKeepDistance(log: seq<Event>, intervals: seq<Option<nat>>, start: nat, rules: Rules, i: nat, j: nat)
    requires Spaced(log, intervals, start, rules) && TimesOrdered(log)
    requires i < j < |log| && log[i].task == log[j].task
    ensures log[i].task < |intervals| && intervals[log[i].task].Some?
    ensures
      var interval := intervals[log[i].task].value;
      var wait := if log[i].sent then interval else rules.retry;
      log[i].time + wait <= rules.horizon ==> log[i].time + wait <= log[j].time
  {
    assert OnTime(log, i, intervals, start, rules);
    var m := FirstAfter(log, i, j);
    assert OnTime(log, m, intervals, start, rules);
  }

  /** Over any run of ticks at non-decreasing times: two successful enqueues of one operation are at
      least its interval apart, and a refused one is retried no sooner than the floored delay,
      as far as the clock can represent those instants. */
  lemma {:induction false} RunsKeepDistance(config: Config, start: nat, horizon: nat, inputs: seq<TickInput>, i: nat, j: nat)
    requires start <= horizon && Ordered(inputs) && forall n :: 0 <= n < |inputs| ==> inputs[n].now <= horizon
    requires
      var log := RunTicks(NewTasks(config, start, horizon), inputs, RulesOf(config, horizon)).1;
      i < j < |log| && log[i].task == log[j].task
    ensures
      var tasks, rules := NewTasks(config, start, horizon), RulesOf(config, horizon);
      var log := RunTicks(tasks, inputs, rules).1;
      && MIN_RETRY_DELAY <= rules.retry
      && log[i].task < |tasks| && tasks[log[i].task].interval.Some?
      && (log[i].sent && log[i].time + tasks[log[i].task].interval.value <= horizon ==>
            log[i].time + tasks[log[i].task].interval.value <= log[j].time)
      && (!log[i].sent && log[i].time + rules.retry <= horizon ==> log[i].time + rules.retry <= log[j].time)
  {
    var tasks, rules := NewTasks(config, start, horizon), RulesOf(config, horizon);
    var log := RunTicks(tasks, inputs, rules).1;
    NewTasksAreGood(config, start, horizon);
    RunKeepsGood(tasks, inputs, Intervals(tasks), start, rules);
    LogIsOrdered(tasks, inputs, rules);
    AttemptsKeepDistance(log, Intervals(tasks), start, rules, i, j);
    assert OnTime(log, i, Intervals(tasks), start, rules);
  }

  // ---------------------------------------------------------------- nothing is lost

  /** The tick does not meet a closed queue before it has passed task `k`. */
  predicate Connected(tasks: seq<Task>, k: nat, now: nat, answers: nat -> Answer) {
    forall i :: 0 <= i <= k && i < |tasks| && Due(tasks[i], now) ==> !answers(i).Closed?
  }

  lemma {:induction false} DueIsAttempted(tasks: seq<Task>, from: nat, k: nat, now: nat, answers: nat -> Answer, rules: Rules)
    requires from <= k < |tasks| && now <= rules.horizon && Due(tasks[k], now)
    requires forall i :: from <= i <= k && Due(tasks[i], now) ==> !answers(i).Closed?
    ensures Event(k, now, answers(k).Sent?) in Tick(tasks, from, now, answers, rules).1
    decreases k - from
  {
    if from < k {
      var next := if Due(tasks[from], now) then tasks[from := Attempted(tasks[from], now, answers(from).Sent?, rules)] else tasks;
      DueIsAttempted(next, from + 1, k, now, answers, rules);
    }
  }

  /** Over any run, a refused operation stays scheduled: it is due again after the retry delay, and a
      tick from then on that reaches it attempts it. */
  lemma {:induction false} RefusedIsNeverLost(
    config: Config, start: nat, horizon: nat, inputs: seq<TickInput>, k: nat, now: nat, answers: nat -> Answer)
    requires start <= horizon && now <= horizon && forall n :: 0 <= n < |inputs| ==> inputs[n].now <= horizon
    requires
      var (tasks, log) := RunTicks(NewTasks(config, start, horizon), inputs, RulesOf(config, horizon));
      k < |tasks| && Last(log, k).Some? && !Last(log, k).value.sent
    ensures
      var rules := RulesOf(config, horizon);
      var (tasks, log) := RunTicks(NewTasks(config, start, horizon), inputs, rules);
      && tasks[k].nextDue == Some(Deadline(Last(log, k).value.time, rules.retry, rules))
      && (tasks[k].nextDue.value <= now && Connected(tasks, k, now, answers) ==>
            Event(k, now, answers(k).Sent?) in Tick(tasks, 0, now, answers, rules).1)
  {
    var first, rules := NewTasks(config, start, horizon), RulesOf(config, horizon);
    var (tasks, log) := RunTicks(first, inputs, rules);
    NewTasksAreGood(config, start, horizon);
    RunKeepsGood(first, inputs, Intervals(first), start, rules);
    assert Tracks(tasks[k], Last(log, k), start, rules);
    if tasks[k].nextDue.value <= now && Connected(tasks, k, now, answers) {
      DueIsAttempted(tasks, 0, k, now, answers, rules);
    }
  }

  // ---------------------------------------------------------------- the next deadline

  predicate Positive(task: Task) {
    task.interval.Some? ==> 0 < task.interval.value
  }

  lemma {:induction false} TickMovesOn(tasks: seq<Task>, k: nat, now: nat, answers: nat -> Answer, rules: Rules)
    requires k <= |tasks| && now < rules.horizon && 0 < rules.retry
    requires forall i :: 0 <= i < |tasks| ==> Positive(tasks[i]) && (tasks[i].interval.None? ==> tasks[i].nextDue.None?)
    requires forall i :: 0 <= i < k ==> !Due(tasks[i], now)
    ensures
      var (after, _, gone) := Tick(tasks, k, now, answers, rules);
      !gone ==> forall i :: 0 <= i < |after| ==> !Due(after[i], now)
    decreases |tasks| - k
  {
    if k < |tasks| {
      if !Due(tasks[k], now) {
        TickMovesOn(tasks, k + 1, now, answers, rules);
      } else if !answers(k).Closed? {
        var next := Attempted(tasks[k], now, answers(k).Sent?, rules);
        assert !Due(next, now) && Positive(next);
        TickMovesOn(tasks[k := next], k + 1, now, answers, rules);
      }
    }
  }

  /** After a connected tick every next deadline is strictly later than the tick. */
  lemma {:induction false} DeadlinesAreLater(config: Config, start: nat, horizon: nat, inputs: seq<TickInput>, now: nat, answers: nat -> Answer)
    requires start <= horizon && now < horizon && forall n :: 0 <= n < |inputs| ==> inputs[n].now <= horizon
    ensures
      var rules := RulesOf(config, horizon);
      var (after, _, gone) := Tick(RunTicks(NewTasks(config, start, horizon), inputs, rules).0, 0, now, answers, rules);
      !gone ==> forall i :: 0 <= i < |after| && after[i].nextDue.Some? ==> now < after[i].nextDue.value
  {
    var first, rules := NewTasks(config, start, horizon), RulesOf(config, horizon);
    var (tasks, log) := RunTicks(first, inputs, rules);
    NewTasksAreGood(config, start, horizon);
    RunKeepsGood(first, inputs, Intervals(first), start, rules);
    forall i | 0 <= i < |tasks| ensures Positive(tasks[i]) && (tasks[i].interval.None? ==> tasks[i].nextDue.None?) {
      assert Tracks(tasks[i], Last(log, i), start, rules);
    }
    TickMovesOn(tasks, 0, now, answers, rules);
    var (after, _, gone) := Tick(tasks, 0, now, answers, rules);
    if !gone {
      forall i | 0 <= i < |after| && after[i].nextDue.Some? ensures now < after[i].nextDue.value {
        assert !Due(after[i], now);
      }
    }
  }
}
