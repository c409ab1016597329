/** The bounded pool for expensive password work: submissions, workers, completion callbacks,
    timeouts, closing and restarting, interleaved step by step. */
module PasswordPool {
  import opened Common

  type TaskId = nat
  type ExecutorId = nat

  /** Where a submission stands with the workers. */
  datatype Stage = Queued | Started | Running | Finished

  /** The completion callback: not yet installed, waiting for completion, waiting for the lock, done. */
  datatype Callback = Absent | Installed | Due | Fired

  datatype Task = Task(executor: ExecutorId, stage: Stage, callback: Callback, abandoned: bool)

  /** What the pool object does not hold itself: submissions, executors, and the submission that is
      queued while its submitter still holds the pool's lock. */
  datatype World = World(tasks: map<TaskId, Task>, executors: nat, shut: set<ExecutorId>, lock: Option<TaskId>)

  datatype Pool = Pool(pending: int, closed: bool, executor: Option<ExecutorId>)

  datatype State = State(pool: Pool, world: World)

  datatype Event =
    | Submit(task: TaskId)
    | Count
    | Install(task: TaskId)
    | Dequeue(task: TaskId)
    | CheckAbandoned(task: TaskId)
    | Finish(task: TaskId)
    | Cancel(task: TaskId)
    | Fire(task: TaskId)
    | Abandon(task: TaskId)
    | Close
    | ShutDown(executor: ExecutorId)
    | Restart

  /** A worker may take a submission as soon as it is queued, before its submitter has counted it. */
  predicate CanHappen(maxPending: nat, s: State, e: Event) {
    var p, w := s.pool, s.world;
    match e
    case Submit(t) => w.lock.None? && t !in w.tasks && !p.closed && p.pending < maxPending
    case Count => w.lock.Some?
    case Install(t) => t in w.tasks && w.lock != Some(t) && w.tasks[t].callback == Absent
    case Dequeue(t) => t in w.tasks && w.tasks[t].stage == Queued
    case CheckAbandoned(t) => t in w.tasks && w.tasks[t].stage == Started
    case Finish(t) => t in w.tasks && w.tasks[t].stage == Running
    case Cancel(t) => t in w.tasks && w.tasks[t].stage == Queued && w.tasks[t].executor in w.shut
    case Fire(t) => w.lock.None? && t in w.tasks && w.tasks[t].callback == Due
    case Abandon(t) => t in w.tasks && w.lock != Some(t)
    case Close => w.lock.None?
    case ShutDown(x) => x < w.executors && p.executor != Some(x)
    case Restart => w.lock.None?
  }

  /** Completion makes an installed callback due at once. */
  function Completed(t: Task): Task {
    t.(stage := Finished, callback := if t.callback == Installed then Due else t.callback)
  }

  /** The executor a submission goes to, created on demand. */
  function ExecutorFor(p: Pool, w: World): ExecutorId { if p.executor.Some? then p.executor.value else w.executors }

  function SetTask(s: State, t: TaskId, task: Task): State { s.(world := s.world.(tasks := s.world.tasks[t := task])) }

  function Next(maxPending: nat, s: State, e: Event): State
    requires CanHappen(maxPending, s, e)
  {
    var p, w := s.pool, s.world;
    match e
    case Submit(t) =>
      var x := ExecutorFor(p, w);
      State(p.(executor := Some(x)),
            World(w.tasks[t := Task(x, Queued, Absent, false)],
                  if p.executor.Some? then w.executors else w.executors + 1, w.shut, Some(t)))
    case Count => State(p.(pending := p.pending + 1), w.(lock := None))
    case Install(t) => SetTask(s, t, w.tasks[t].(callback := if w.tasks[t].stage == Finished then Due else Installed))
    case Dequeue(t) => SetTask(s, t, w.tasks[t].(stage := Started))
    case CheckAbandoned(t) => SetTask(s, t, if w.tasks[t].abandoned then Completed(w.tasks[t])
      else w.tasks[t].(stage := Running))
    case Finish(t) => SetTask(s, t, Completed(w.tasks[t]))
    case Cancel(t) => SetTask(s, t, Completed(w.tasks[t]))
    case Fire(t) => SetTask(s.(pool := p.(pending := p.pending - 1)), t, w.tasks[t].(callback := Fired))
    case Abandon(t) => SetTask(s, t, w.tasks[t].(abandoned := true))
    case Close => s.(pool := p.(closed := true, executor := None))
    case ShutDown(x) => s.(world := w.(shut := w.shut + {x}))
    case Restart => s.(pool := p.(closed := false))
  }

  // ----- What every step keeps

  /** The submissions that have been counted and whose callback has not run. */
  ghost function Outstanding(w: World): set<TaskId> {
    set t | t in w.tasks && w.lock != Some(t) && w.tasks[t].callback != Fired
  }

  /** Queued, or in a worker's hands. */
  ghost function Unfinished(w: World): set<TaskId> {
    set t | t in w.tasks && w.tasks[t].stage != Finished
  }

  ghost predicate TaskSound(task: Task) {
    && (task.callback == Due || task.callback == Fired ==> task.stage == Finished)
    && (task.callback == Installed ==> task.stage != Finished)
  }

  /** The accounting. */
  ghost predicate Counted(maxPending: nat, p: Pool, w: World) {
    && p.pending == |Outstanding(w)| <= maxPending
    && (w.lock.Some? ==> w.lock.value in w.tasks && w.tasks[w.lock.value].callback == Absent && p.pending < maxPending)
  }

  ghost predicate TasksSound(w: World) { forall t :: t in w.tasks ==> TaskSound(w.tasks[t]) }

  ghost predicate ExecutorsSound(p: Pool, w: World) {
    && (p.executor.Some? ==> p.executor.value < w.executors && p.executor.value !in w.shut)
    && (forall x :: x in w.shut ==> x < w.executors)
  }

  ghost predicate Inv(maxPending: nat, s: State) {
    Counted(maxPending, s.pool, s.world) && TasksSound(s.world) && ExecutorsSound(s.pool, s.world)
  }

  lemma TasksStep(maxPending: nat, s: State, e: Event)
    requires Inv(maxPending, s) && CanHappen(maxPending, s, e)
    ensures TasksSound(Next(maxPending, s, e).world)
  {
  }

  lemma ExecutorsStep(maxPending: nat, s: State, e: Event)
    requires Inv(maxPending, s) && CanHappen(maxPending, s, e)
    ensures ExecutorsSound(Next(maxPending, s, e).pool, Next(maxPending, s, e).world)
  {
  }

  /** How each step changes the outstanding submissions. */
  lemma OutstandingStep(maxPending: nat, s: State, e: Event)
    requires Inv(maxPending, s) && CanHappen(maxPending, s, e)
    ensures var before, after := Outstanding(s.world), Outstanding(Next(maxPending, s, e).world);
            match e
            case Count => s.world.lock.value !in before && after == before + {s.world.lock.value}
            case Fire(t) => t in before && after == before - {t}
            case _ => after == before
  {
    if e.Count? || e.Fire? {
    } else {
      SameOutstanding(maxPending, s, e);
    }
  }

  lemma SameOutstanding(maxPending: nat, s: State, e: Event)
    requires Inv(maxPending, s) && CanHappen(maxPending, s, e) && !e.Count? && !e.Fire?
    ensures Outstanding(Next(maxPending, s, e).world) == Outstanding(s.world)
  {
  }

  lemma CountedStep(maxPending: nat, s: State, e: Event)
    requires Inv(maxPending, s) && CanHappen(maxPending, s, e)
    ensures Counted(maxPending, Next(maxPending, s, e).pool, Next(maxPending, s, e).world)
  {
    OutstandingStep(maxPending, s, e);
  }

  ghost predicate Run(maxPending: nat, states: seq<State>, events: seq<Event>) {
    && |states| == |events| + 1
    && states[0] == State(Pool(0, false, None), World(map[], 0, {}, None))
    && forall i {:trigger events[i]} :: 0 <= i < |events| ==>
         CanHappen(maxPending, states[i], events[i]) && states[i + 1] == Next(maxPending, states[i], events[i])
  }

  lemma {:induction false} InvAlways(maxPending: nat, states: seq<State>, events: seq<Event>, i: nat)
    requires Run(maxPending, states, events) && i < |states|
    ensures Inv(maxPending, states[i])
  {
    if i > 0 {
      InvAlways(maxPending, states, events, i - 1);
      var s, e := states[i - 1], events[i - 1];
      TasksStep(maxPending, s, e);
      ExecutorsStep(maxPending, s, e);
      CountedStep(maxPending, s, e);
    } else {
      assert Outstanding(states[0].world) == {};
    }
  }

  /** In every reachable state the counter is the number of counted submissions whose callback has not
      run, between zero and the maximum, and the executor that submissions go to is not shut down. */
  lemma PendingIsOutstanding(maxPending: nat, states: seq<State>, events: seq<Event>, i: nat)
    requires Run(maxPending, states, events) && i < |states|
    ensures states[i].pool.pending == |Outstanding(states[i].world)|
    ensures 0 <= states[i].pool.pending <= maxPending
    ensures states[i].pool.executor.Some? ==> states[i].pool.executor.value !in states[i].world.shut
  {
    InvAlways(maxPending, states, events, i);
  }

  /** Abandoned or not, across closing and restarting, never more than the maximum is queued or running:
      the executors' queues stay bounded. */
  lemma WorkIsBounded(maxPending: nat, states: seq<State>, events: seq<Event>, i: nat)
    requires Run(maxPending, states, events) && i < |states|
    ensures |Unfinished(states[i].world)| <= maxPending
  {
    InvAlways(maxPending, states, events, i);
    var w := states[i].world;
    if w.lock.Some? {
      assert w.lock.value !in Outstanding(w);
      assert Unfinished(w) <= Outstanding(w) + {w.lock.value};
      SubsetSize(Unfinished(w), Outstanding(w) + {w.lock.value});
    } else {
      assert Unfinished(w) <= Outstanding(w);
      SubsetSize(Unfinished(w), Outstanding(w));
    }
  }

  // ----- Once per submission

  lemma {:induction false} TaskPersists(maxPending: nat, states: seq<State>, events: seq<Event>, i: nat, j: nat,
                                        t: TaskId)
    requires Run(maxPending, states, events) && i <= j < |states| && t in states[i].world.tasks
    ensures t in states[j].world.tasks
    ensures states[i].world.tasks[t].callback == Fired ==> states[j].world.tasks[t].callback == Fired
    ensures states[i].world.tasks[t].abandoned ==> states[j].world.tasks[t].abandoned
    ensures Level(states[i].world.tasks[t].stage) <= Level(states[j].world.tasks[t].stage)
    ensures states[i].world.tasks[t].abandoned && states[i].world.tasks[t].stage != Running ==>
              states[j].world.tasks[t].stage != Running
  {
    if i == j {
    } else {
      TaskPersists(maxPending, states, events, i, j - 1, t);
      TaskStep(maxPending, states[j - 1], events[j - 1], t);
    }
  }

  function Level(stage: Stage): nat {
    match stage case Queued => 0 case Started => 1 case Running => 2 case Finished => 3
  }

  lemma TaskStep(maxPending: nat, s: State, e: Event, t: TaskId)
    requires CanHappen(maxPending, s, e) && t in s.world.tasks
    ensures var before, world := s.world.tasks[t], Next(maxPending, s, e).world;
            && t in world.tasks
            && var after := world.tasks[t];
            && (before.callback == Fired ==> after.callback == Fired)
            && (before.abandoned ==> after.abandoned)
            && Level(before.stage) <= Level(after.stage)
            && (before.abandoned && before.stage != Running ==> after.stage != Running)
  {
  }

  /** Each submission is taken off the counter at most once. */
  lemma ReleasedOnce(maxPending: nat, states: seq<State>, events: seq<Event>, i: nat, j: nat, t: TaskId)
    requires Run(maxPending, states, events) && i < j < |events| && events[i] == Fire(t)
    ensures events[j] != Fire(t)
  {
    assert CanHappen(maxPending, states[i], events[i]);
    TaskPersists(maxPending, states, events, i + 1, j, t);
    assert CanHappen(maxPending, states[j], events[j]);
  }

  /** Work abandoned before its dequeued check never runs. */
  lemma AbandonedNeverRuns(maxPending: nat, states: seq<State>, events: seq<Event>, i: nat, j: nat, t: TaskId)
    requires Run(maxPending, states, events) && i < j < |states| && events[i] == Abandon(t)
    requires t in states[i].world.tasks && Level(states[i].world.tasks[t].stage) < Level(Running)
    ensures t in states[j].world.tasks && states[j].world.tasks[t].stage != Running
  {
    assert CanHappen(maxPending, states[i], events[i]);
    TaskPersists(maxPending, states, events, i + 1, j, t);
  }

  ghost function Times(events: seq<Event>, p: Event -> bool): nat {
    if events == [] then 0 else Times(events[..|events| - 1], p) + (if p(events[|events| - 1]) then 1 else 0)
  }

  lemma {:induction false} TimesOnce(events: seq<Event>, p: Event -> bool)
    requires forall i, j :: 0 <= i < j < |events| && p(events[i]) ==> !p(events[j])
    ensures Times(events, p) <= 1
    ensures Times(events, p) == 0 <==> forall i :: 0 <= i < |events| ==> !p(events[i])
  {
    if events == [] {
    } else {
      TimesOnce(events[..|events| - 1], p);
      assert forall i :: 0 <= i < |events| - 1 ==> events[i] == events[..|events| - 1][i];
    }
  }

  /** Every submission is counted once; its callback, when it has run, ran once and for a finished
      task; until then it is outstanding. */
  lemma ReleasedExactlyOnce(maxPending: nat, states: seq<State>, events: seq<Event>, t: TaskId)
    requires Run(maxPending, states, events)
    requires t in states[|events|].world.tasks && states[|events|].world.lock != Some(t)
    ensures Times(events, (e: Event) => e == Fire(t)) == if t in Outstanding(states[|events|].world) then 0 else 1
  {
    var fires := (e: Event) => e == Fire(t);
    forall i, j | 0 <= i < j < |events| && fires(events[i]) ensures !fires(events[j]) {
      ReleasedOnce(maxPending, states, events, i, j, t);
    }
    TimesOnce(events, fires);
    FiredIffFire(maxPending, states, events, |events|, t);
  }

  lemma {:induction false} FiredIffFire(maxPending: nat, states: seq<State>, events: seq<Event>, n: nat, t: TaskId)
    requires Run(maxPending, states, events) && n <= |events|
    ensures (exists i :: 0 <= i < n && events[i] == Fire(t)) <==>
            t in states[n].world.tasks && states[n].world.tasks[t].callback == Fired
  {
    if n == 0 {
    } else {
      FiredIffFire(maxPending, states, events, n - 1, t);
      assert CanHappen(maxPending, states[n - 1], events[n - 1]);
    }
  }

  // ----- Nothing gets stuck

  /** Every outstanding submission has a step that brings it closer to release: its work can be taken,
      checked or finished, its callback installed, or run once the lock is free; and a held lock can
      always be let go. */
  lemma ReleaseIsReachable(maxPending: nat, s: State, t: TaskId)
    requires Inv(maxPending, s) && t in Outstanding(s.world)
    ensures s.world.lock.Some? ==> CanHappen(maxPending, s, Count) && Next(maxPending, s, Count).world.lock.None?
    ensures s.world.lock.None? ==>
              exists e :: CanHappen(maxPending, s, e) &&
                Toward(Next(maxPending, s, e).world.tasks, t) < Toward(s.world.tasks, t)
  {
    if s.world.lock.None? {
      var task := s.world.tasks[t];
      var e := if task.callback == Absent then Install(t)
               else match task.stage
                 case Queued => Dequeue(t)
                 case Started => CheckAbandoned(t)
                 case Running => Finish(t)
                 case Finished => Fire(t);
      assert TaskSound(task);
      assert CanHappen(maxPending, s, e);
      assert Toward(Next(maxPending, s, e).world.tasks, t) < Toward(s.world.tasks, t);
    }
  }

  /** Steps left before release. */
  ghost function Toward(tasks: map<TaskId, Task>, t: TaskId): nat {
    if t !in tasks then 0
    else
      (3 - Level(tasks[t].stage))
        + (match tasks[t].callback case Absent => 2 case Installed => 1 case Due => 1 case Fired => 0)
  }

  // ----- The pool object

  /** Closing refuses every submission until a restart, after which there is room exactly below the maximum. The
      work that is outstanding stays counted through both. */
  lemma ClosedUntilRestart(maxPending: nat, s: State, t: TaskId)
    requires CanHappen(maxPending, s, Close)
    ensures var closed := Next(maxPending, s, Close);
            && !CanHappen(maxPending, closed, Submit(t)) && closed.world == s.world &&
              closed.pool.pending == s.pool.pending
            && CanHappen(maxPending, closed, Restart)
            && var again := Next(maxPending, closed, Restart);
               && again.world == s.world && again.pool.pending == s.pool.pending && again.pool.executor == None
               && (CanHappen(maxPending, again, Submit(t)) <==> t !in s.world.tasks && s.pool.pending < maxPending)
  {
  }

  class PasswordWorkPool {
    const workers: nat
    const maxPending: nat
    var pending: int
    var closed: bool
    var executor: Option<ExecutorId>

    ghost function View(w: World): State
      reads this
    {
      State(Pool(pending, closed, executor), w)
    }

    constructor (workers: nat, maxPending: nat)
      requires 1 <= workers <= maxPending
      ensures this.workers == workers && this.maxPending == maxPending
      ensures pending == 0 && !closed && executor == None
    {
      this.workers, this.maxPending := workers, maxPending;
      pending, closed, executor := 0, false, None;
    }

    method Start(ghost w: World)
      requires w.lock.None?
      modifies this
      ensures View(w) == Next(maxPending, old(View(w)), Restart)
      ensures !closed && pending == old(pending) && executor == old(executor)
    {
      closed := false;
    }

    method OnCompleted(t: TaskId, ghost w: World)
      requires CanHappen(maxPending, View(w), Fire(t))
      modifies this
      ensures View(w.(tasks := w.tasks[t := w.tasks[t].(callback := Fired)])) == Next(maxPending, old(View(w)), Fire(t))
    {
      pending := pending - 1;
    }

    /** The locked part of a run: refuse when closed or full; otherwise queue the work, creating an
        executor on demand, and count it. Workers and abandonments may step in between. */
    method Admit(t: TaskId, created: ExecutorId, ghost w: World)
      returns (accepted: Option<ExecutorId>, ghost queued: World)
      requires w.lock.None? && t !in w.tasks && created == w.executors
      modifies this
      ensures accepted.Some? <==> !old(closed) && old(pending) < maxPending
      ensures accepted.None? ==> View(w) == old(View(w))
      ensures accepted.Some? ==>
                && accepted.value == ExecutorFor(old(View(w)).pool, w)
                && State(Pool(old(pending), closed, executor), queued) == Next(maxPending, old(View(w)), Submit(t))
                && View(queued.(lock := None)) == Next(maxPending, State(Pool(old(pending), closed, executor), queued),
                  Count)
    {
      queued := w;
      if closed || pending >= maxPending { return None, w; }
      queued := Next(maxPending, View(w), Submit(t)).world;
      if executor.None? { executor := Some(created); }
      accepted := executor;
      pending := pending + 1;
    }

    /** The locked part of closing: what is left to shut down is handed back. */
    method Close(ghost w: World) returns (detached: Option<ExecutorId>)
      requires w.lock.None?
      modifies this
      ensures View(w) == Next(maxPending, old(View(w)), Event.Close) && detached == old(executor)
      ensures closed && executor == None && pending == old(pending)
    {
      closed := true;
      detached, executor := executor, None;
    }
  }
}
