/**
 * The `useMarketStream` hook's process-wide playback service: the flags
 * `globalIsPlaying`, `globalIsReady` and `isLoopRunning`, the pending timer
 * `loopTimeout`, and the loop manager (`startLoop`, its `tick`, `stopLoop`)
 * that pulls batches of 20 events from the engine and applies each batch in
 * one transaction (`processEvents`).
 *
 * A loop is asynchronous: it suspends while the database opens, while a
 * batch is applied, and between ticks. Its pending continuations are
 * recorded as chains, one per call of `startLoop` that got past its guard,
 * so that the interleavings of user commands with running loops are steps
 * of the model.
 */
module MarketStreamHook {
  import opened Results
  import opened Events
  import opened OrderBookOps
  import opened Cursor

  /** Events pulled per tick. */
  const BatchSize: nat := 20

  /** Milliseconds between ticks. */
  const TickDelay: nat := 50

  /**
   * `processEvents`: the events applied in order inside one transaction.
   * If a statement throws, the transaction rolls back and the error
   * propagates; otherwise the store is the left fold of the applier.
   */
  method ProcessEvents(db: Database, events: seq<StreamEvent>) returns (err: Option<ApplyError>)
    modifies db
    ensures ApplyAll(old(db.Contents()), events).Success? ==>
              err.None? && db.Contents() == ApplyAll(old(db.Contents()), events).value
    ensures ApplyAll(old(db.Contents()), events).Failure? ==>
              err == Some(ApplyAll(old(db.Contents()), events).error) && db.Contents() == old(db.Contents())
  {
    var snapshot := db.Contents();
    var i := 0;
    while i < |events|
      invariant 0 <= i <= |events|
      invariant ApplyAll(snapshot, events) == ApplyAll(db.Contents(), events[i..])
    {
      assert events[i..][0] == events[i] && events[i..][1..] == events[i + 1..];
      err := db.ProcessStreamEvent(events[i]);
      if err.Some? {
        db.Restore(snapshot);
        return;
      }
      i := i + 1;
    }
    return None;
  }

  // ---------------------------------------------------------------------
  // The loop manager as a transition system
  // ---------------------------------------------------------------------

  /**
   * Where a loop is suspended: waiting for `getDb()`, waiting for a batch
   * transaction that will succeed (`ok`) or throw, waiting for the timer
   * `handle`, or gone.
   */
  datatype Phase = AwaitingDb | Applying(ok: bool) | Scheduled(handle: nat) | Ended

  /** One call of `startLoop`: the generation it was started in and where it is suspended. */
  datatype Chain = Chain(generation: nat, phase: Phase)

  /**
   * The hook's module-level state. `generation` counts calls of `startLoop`
   * and `stopLoop`; the code as written never reads it. `notifications`
   * counts calls of `notifyListeners`.
   */
  datatype LoopState = LoopState(
    playing: bool,
    ready: bool,
    running: bool,
    timeout: Option<nat>,
    nextHandle: nat,
    generation: nat,
    chains: seq<Chain>,
    notifications: nat)

  /** At module load: not playing, not ready, no loop; timer ids are positive. */
  const Initial: LoopState := LoopState(false, false, false, None, 1, 0, [], 0)

  /**
   * What can happen next: a user command, the effect on `[isReady,
   * isPlaying]` (`SyncCmd`), or the resumption of a suspended loop `k`.
   * For a resumption that runs a tick, `batchEmpty` says whether
   * `nextBatch(20)` came back empty and `applied` whether `processEvents`
   * will succeed.
   */
  datatype Action =
    | ToggleCmd
    | ResetCmd
    | InitCmd
    | SyncCmd
    | DbOpened(k: nat, dbOk: bool, batchEmpty: bool, applied: bool)
    | TimerFired(k: nat, batchEmpty: bool, applied: bool)
    | BatchSettled(k: nat)

  predicate Enabled(s: LoopState, a: Action)
  {
    match a
    case DbOpened(k, _, _, _) => k < |s.chains| && s.chains[k].phase == AwaitingDb
    case TimerFired(k, _, _) => k < |s.chains| && s.chains[k].phase.Scheduled?
    case BatchSettled(k) => k < |s.chains| && s.chains[k].phase.Applying?
    case _ => true
  }

  /**
   * Whether loop `k` may act. The code as written lets every suspended loop
   * resume; with the generation guard (`guarded`) a loop from an earlier
   * generation only exits.
   */
  predicate Current(s: LoopState, k: nat, guarded: bool)
    requires k < |s.chains|
  {
    !guarded || s.chains[k].generation == s.generation
  }

  function End(s: LoopState, k: nat): (t: LoopState)
    requires k < |s.chains|
  {
    s.(chains := s.chains[k := s.chains[k].(phase := Ended)])
  }

  /** `clearTimeout(h)`: the loop waiting for timer `h`, if any, is gone. */
  function ClearTimer(cs: seq<Chain>, h: nat): (r: seq<Chain>)
    ensures |r| == |cs|
    ensures forall i :: 0 <= i < |cs| ==> r[i].generation == cs[i].generation
    ensures forall i :: 0 <= i < |cs| ==> r[i].phase == (if cs[i].phase == Scheduled(h) then Ended else cs[i].phase)
  {
    seq(|cs|, i requires 0 <= i < |cs| => if cs[i].phase == Scheduled(h) then cs[i].(phase := Ended) else cs[i])
  }

  /** `startLoop` up to its `await getDb()`. */
  function AfterStartLoop(s: LoopState): LoopState
  {
    if s.running then s
    else s.(running := true, generation := s.generation + 1,
            chains := s.chains + [Chain(s.generation + 1, AwaitingDb)])
  }

  /** `stopLoop`: clears the pending timer and `isLoopRunning`; `globalIsPlaying` is left alone. */
  function AfterStopLoop(s: LoopState): LoopState
  {
    var cs := match s.timeout
      case Some(h) => ClearTimer(s.chains, h)
      case None => s.chains;
    s.(chains := cs, running := false, generation := s.generation + 1)
  }

  /** Whether `tick` of loop `k` calls `nextBatch` and applies what it gets. */
  predicate TickPulls(s: LoopState, k: nat, guarded: bool)
    requires k < |s.chains|
  {
    Current(s, k, guarded) && s.playing
  }

  /** `tick` of loop `k` up to its `await processEvents(...)`. */
  function AfterTick(s: LoopState, k: nat, batchEmpty: bool, applied: bool, guarded: bool): LoopState
    requires k < |s.chains|
  {
    if !Current(s, k, guarded) then End(s, k)
    else if !s.playing then End(s.(running := false), k)
    else if batchEmpty then End(s.(playing := false, running := false, notifications := s.notifications + 1), k)
    else s.(chains := s.chains[k := s.chains[k].(phase := Applying(applied))])
  }

  function Step(s: LoopState, a: Action, guarded: bool): LoopState
    requires Enabled(s, a)
  {
    match a
    case ToggleCmd => s.(playing := !s.playing, notifications := s.notifications + 1)
    case ResetCmd => AfterStopLoop(s).(playing := false, notifications := s.notifications + 1)
    case InitCmd => if s.ready then s else s.(ready := true, notifications := s.notifications + 1)
    case SyncCmd => if s.ready && s.playing then AfterStartLoop(s) else AfterStopLoop(s)
    case DbOpened(k, dbOk, batchEmpty, applied) =>
      if !Current(s, k, guarded) then End(s, k)
      else if !dbOk || !s.playing then End(s.(running := false), k)
      else AfterTick(s, k, batchEmpty, applied, guarded)
    case TimerFired(k, batchEmpty, applied) => AfterTick(s, k, batchEmpty, applied, guarded)
    case BatchSettled(k) =>
      if !Current(s, k, guarded) then End(s, k)
      else if s.chains[k].phase.ok then
        s.(notifications := s.notifications + 1, timeout := Some(s.nextHandle), nextHandle := s.nextHandle + 1,
           chains := s.chains[k := s.chains[k].(phase := Scheduled(s.nextHandle))])
      else End(s.(playing := false, running := false, notifications := s.notifications + 1), k)
  }

  /** A step that cannot happen in `s` leaves it as it is. */
  function StepOrStay(s: LoopState, a: Action, guarded: bool): LoopState
  {
    if Enabled(s, a) then Step(s, a, guarded) else s
  }

  function Run(s: LoopState, trace: seq<Action>, guarded: bool): LoopState
    decreases |trace|
  {
    if trace == [] then s else Run(StepOrStay(s, trace[0], guarded), trace[1..], guarded)
  }

  // ---------------------------------------------------------------------
  // Single-step properties
  // ---------------------------------------------------------------------

  /** `togglePlay` flips `globalIsPlaying` and touches no loop. */
  lemma ToggleFlipsPlaying(s: LoopState, guarded: bool)
    ensures var t := Step(s, ToggleCmd, guarded);
      t.playing == !s.playing && t.running == s.running && t.chains == s.chains
  {
  }

  /** `stopLoop` clears `isLoopRunning` and leaves `globalIsPlaying` as it was. */
  lemma StopLoopKeepsPlaying(s: LoopState, guarded: bool)
    requires !(s.ready && s.playing)
    ensures var t := Step(s, SyncCmd, guarded);
      !t.running && t.playing == s.playing && t.timeout == s.timeout
  {
  }

  /** Once `stopLoop` ran, no loop waits for the timer it cleared. */
  lemma StopLoopClearsTimer(s: LoopState, h: nat)
    requires s.timeout == Some(h)
    ensures forall i :: 0 <= i < |AfterStopLoop(s).chains| ==> AfterStopLoop(s).chains[i].phase != Scheduled(h)
  {
  }

  /** `reset` stops the loop and clears `globalIsPlaying`. */
  lemma ResetStops(s: LoopState, guarded: bool)
    ensures !Step(s, ResetCmd, guarded).playing && !Step(s, ResetCmd, guarded).running
  {
  }

  /** `startLoop` while a loop runs changes nothing. */
  lemma StartWhileRunningIsNoop(s: LoopState, guarded: bool)
    requires s.running && s.ready && s.playing
    ensures Step(s, SyncCmd, guarded) == s
  {
  }

  /**
   * A loop resuming while not playing, or whose database did not open,
   * clears `isLoopRunning`, pulls nothing and is gone.
   */
  lemma NotPlayingAppliesNothing(s: LoopState, a: Action, guarded: bool)
    requires Enabled(s, a) && (a.DbOpened? || a.TimerFired?)
    requires Current(s, a.k, guarded)
    requires !s.playing || (a.DbOpened? && !a.dbOk)
    ensures !(a.TimerFired? && TickPulls(s, a.k, guarded))
    ensures var t := Step(s, a, guarded);
      !t.running && t.playing == s.playing && t.chains[a.k].phase == Ended
  {
  }

  /** An empty batch clears both `globalIsPlaying` and `isLoopRunning` and ends the loop. */
  lemma EmptyBatchFinishes(s: LoopState, k: nat, applied: bool, guarded: bool)
    requires k < |s.chains| && s.chains[k].phase.Scheduled? && TickPulls(s, k, guarded)
    ensures var t := Step(s, TimerFired(k, true, applied), guarded);
      !t.playing && !t.running && t.chains[k].phase == Ended && t.notifications == s.notifications + 1
  {
  }

  /** A non-empty batch leaves the loop waiting for its transaction. */
  lemma BatchStartsTransaction(s: LoopState, k: nat, applied: bool, guarded: bool)
    requires k < |s.chains| && s.chains[k].phase.Scheduled? && TickPulls(s, k, guarded)
    ensures var t := Step(s, TimerFired(k, false, applied), guarded);
      t.playing && t.running == s.running && t.chains[k].phase == Applying(applied)
  {
  }

  /**
   * A batch that throws clears both flags and ends the loop with no timer
   * scheduled; one that succeeds schedules the next tick.
   */
  lemma SettledBatch(s: LoopState, k: nat, guarded: bool)
    requires k < |s.chains| && s.chains[k].phase.Applying? && Current(s, k, guarded)
    ensures var t := Step(s, BatchSettled(k), guarded);
      && (!s.chains[k].phase.ok ==>
            !t.playing && !t.running && t.chains[k].phase == Ended && t.timeout == s.timeout)
      && (s.chains[k].phase.ok ==>
            t.playing == s.playing && t.chains[k].phase == Scheduled(s.nextHandle) && t.timeout == Some(s.nextHandle))
  {
  }

  // ---------------------------------------------------------------------
  // At most one loop
  // ---------------------------------------------------------------------

  /** Loop `i` is still there and will act when it resumes. */
  predicate Live(s: LoopState, i: nat, guarded: bool)
  {
    i < |s.chains| && s.chains[i].phase != Ended && Current(s, i, guarded)
  }

  predicate AtMostOneLoop(s: LoopState, guarded: bool)
  {
    forall i: nat, j: nat :: i < |s.chains| && j < |s.chains| && Live(s, i, guarded) && Live(s, j, guarded) ==> i == j
  }

  /**
   * With the generation guard: no loop is from a later generation, at most
   * one loop is live, and `isLoopRunning` holds exactly when one is.
   */
  predicate Inv(s: LoopState)
  {
    && (forall i :: 0 <= i < |s.chains| ==> s.chains[i].generation <= s.generation)
    && AtMostOneLoop(s, true)
    && (s.running <==> exists i: nat :: i < |s.chains| && Live(s, i, true))
  }

  lemma InitialInv()
    ensures Inv(Initial)
  {
  }

  /** The invariant only looks at the loops, the generation and `isLoopRunning`. */
  lemma InvIgnoresFlags(s: LoopState, t: LoopState)
    requires Inv(s)
    requires t.chains == s.chains && t.generation == s.generation && t.running == s.running
    ensures Inv(t)
  {
    forall i: nat
      ensures Live(t, i, true) <==> Live(s, i, true)
    {
    }
  }

  lemma EndKeepsInv(s: LoopState, k: nat)
    requires Inv(s) && k < |s.chains| && !Live(s, k, true)
    ensures Inv(End(s, k))
  {
    var t := End(s, k);
    forall i: nat
      ensures Live(t, i, true) <==> Live(s, i, true)
    {
    }
  }

  lemma EndOnlyLoopKeepsInv(s: LoopState, k: nat)
    requires Inv(s) && Live(s, k, true)
    ensures Inv(End(s.(running := false), k))
  {
    var t := End(s.(running := false), k);
    forall i: nat
      ensures !Live(t, i, true)
    {
      if Live(t, i, true) {
        assert Live(s, i, true);
      }
    }
  }

  lemma StopLoopInv(s: LoopState)
    requires Inv(s)
    ensures Inv(AfterStopLoop(s))
    ensures forall i: nat :: !Live(AfterStopLoop(s), i, true)
  {
  }

  lemma StartLoopInv(s: LoopState)
    requires Inv(s)
    ensures Inv(AfterStartLoop(s))
  {
    if !s.running {
      var t := AfterStartLoop(s);
      assert Live(t, |s.chains|, true);
      forall i: nat | Live(t, i, true)
        ensures i == |s.chains|
      {
      }
    }
  }

  lemma TickInv(s: LoopState, k: nat, batchEmpty: bool, applied: bool)
    requires Inv(s) && k < |s.chains| && s.chains[k].phase != Ended
    ensures Inv(AfterTick(s, k, batchEmpty, applied, true))
  {
    if !Current(s, k, true) {
      EndKeepsInv(s, k);
    } else if !s.playing {
      EndOnlyLoopKeepsInv(s, k);
    } else if batchEmpty {
      InvIgnoresFlags(s, s.(playing := false, notifications := s.notifications + 1));
      EndOnlyLoopKeepsInv(s.(playing := false, notifications := s.notifications + 1), k);
    } else {
      var t := AfterTick(s, k, batchEmpty, applied, true);
      forall i: nat
        ensures Live(t, i, true) <==> Live(s, i, true)
      {
      }
    }
  }

  /** Every step of the guarded loop manager keeps the invariant. */
  lemma StepKeepsInv(s: LoopState, a: Action)
    requires Inv(s) && Enabled(s, a)
    ensures Inv(Step(s, a, true))
  {
    match a
    case ToggleCmd =>
      InvIgnoresFlags(s, Step(s, a, true));
    case InitCmd =>
      InvIgnoresFlags(s, Step(s, a, true));
    case ResetCmd =>
      StopLoopInv(s);
    case SyncCmd =>
      StopLoopInv(s);
      StartLoopInv(s);
    case DbOpened(k, dbOk, batchEmpty, applied) =>
      if !Current(s, k, true) {
        EndKeepsInv(s, k);
      } else if !dbOk || !s.playing {
        EndOnlyLoopKeepsInv(s, k);
      } else {
        TickInv(s, k, batchEmpty, applied);
      }
    case TimerFired(k, batchEmpty, applied) =>
      TickInv(s, k, batchEmpty, applied);
    case BatchSettled(k) =>
      if !Current(s, k, true) {
        EndKeepsInv(s, k);
      } else if s.chains[k].phase.ok {
        var t := Step(s, a, true);
        forall i: nat
          ensures Live(t, i, true) <==> Live(s, i, true)
        {
        }
      } else {
        InvIgnoresFlags(s, s.(playing := false, notifications := s.notifications + 1));
        EndOnlyLoopKeepsInv(s.(playing := false, notifications := s.notifications + 1), k);
      }
  }

  lemma {:induction false} RunKeepsInv(s: LoopState, trace: seq<Action>)
    requires Inv(s)
    ensures Inv(Run(s, trace, true))
    decreases |trace|
  {
    if trace != [] {
      if Enabled(s, trace[0]) {
        StepKeepsInv(s, trace[0]);
      }
      RunKeepsInv(StepOrStay(s, trace[0], true), trace[1..]);
    }
  }

  /**
   * With the generation guard, whatever the users do and however the
   * suspended loops interleave, at most one loop is live, and it is live
   * exactly while `isLoopRunning` is set; every other loop has ended or was
   * stopped while waiting for `getDb()` or its transaction.
   */
  lemma GuardedLoopIsUnique(trace: seq<Action>)
    ensures AtMostOneLoop(Run(Initial, trace, true), true)
    ensures Run(Initial, trace, true).running <==> exists i: nat :: i < |Run(Initial, trace, true).chains| && Live(Run(Initial, trace, true), i, true)
    ensures Quiet(Run(Initial, trace, true))
  {
    InitialInv();
    assert Quiet(Initial);
    RunKeepsQuiet(Initial, trace);
  }

  // ---------------------------------------------------------------------
  // Stopped loops
  // ---------------------------------------------------------------------

  /** Loop `i` has not ended but belongs to an earlier generation: it was stopped while suspended. */
  predicate Stale(s: LoopState, i: nat)
  {
    i < |s.chains| && s.chains[i].phase != Ended && !Current(s, i, true)
  }

  /**
   * With the generation guard: a stopped loop that has not ended is
   * suspended in `await getDb()` or in its batch transaction, the two waits
   * `stopLoop` cannot cancel; and a live loop waiting for a timer waits for
   * the pending one, which `stopLoop` clears.
   */
  predicate Quiet(s: LoopState)
  {
    && (forall i: nat :: i < |s.chains| && Stale(s, i) ==>
          s.chains[i].phase == AwaitingDb || s.chains[i].phase.Applying?)
    && (forall i: nat :: i < |s.chains| && Live(s, i, true) && s.chains[i].phase.Scheduled? ==>
          s.timeout == Some(s.chains[i].phase.handle))
  }

  /** With the guard, a stopped loop that resumes only ends: no pull, no flag, no notification, no timer. */
  lemma StaleLoopOnlyEnds(s: LoopState, a: Action)
    requires Enabled(s, a) && (a.DbOpened? || a.TimerFired? || a.BatchSettled?)
    requires !Current(s, a.k, true)
    ensures Step(s, a, true) == End(s, a.k)
    ensures !TickPulls(s, a.k, true)
  {
  }

  lemma QuietIgnoresFlags(s: LoopState, t: LoopState)
    requires Quiet(s)
    requires t.chains == s.chains && t.generation == s.generation && t.timeout == s.timeout
    ensures Quiet(t)
  {
    forall i: nat
      ensures Stale(t, i) == Stale(s, i) && Live(t, i, true) == Live(s, i, true)
    {
    }
  }

  lemma EndKeepsQuiet(s: LoopState, k: nat)
    requires Quiet(s) && k < |s.chains|
    ensures Quiet(End(s, k))
  {
    var t := End(s, k);
    forall i: nat | i != k
      ensures Stale(t, i) == Stale(s, i) && Live(t, i, true) == Live(s, i, true)
    {
    }
  }

  lemma StopLoopQuiet(s: LoopState)
    requires Inv(s) && Quiet(s)
    ensures Quiet(AfterStopLoop(s))
  {
    var t := AfterStopLoop(s);
    StopLoopInv(s);
    forall i: nat | i < |t.chains|
      ensures Stale(t, i) ==> t.chains[i].phase == AwaitingDb || t.chains[i].phase.Applying?
    {
      if Live(s, i, true) && s.chains[i].phase.Scheduled? {
        assert t.chains[i].phase == Ended;
      }
    }
  }

  lemma StartLoopQuiet(s: LoopState)
    requires Inv(s) && Quiet(s)
    ensures Quiet(AfterStartLoop(s))
  {
    if !s.running {
      var t := AfterStartLoop(s);
      forall i: nat | i < |s.chains|
        ensures Stale(t, i) == (s.chains[i].phase != Ended) && !Live(t, i, true)
      {
        assert !Live(s, i, true);
      }
    }
  }

  lemma TickKeepsQuiet(s: LoopState, k: nat, batchEmpty: bool, applied: bool)
    requires Inv(s) && Quiet(s) && k < |s.chains| && s.chains[k].phase != Ended
    ensures Quiet(AfterTick(s, k, batchEmpty, applied, true))
  {
    if !Current(s, k, true) {
      EndKeepsQuiet(s, k);
    } else if !s.playing {
      QuietIgnoresFlags(s, s.(running := false));
      EndKeepsQuiet(s.(running := false), k);
    } else if batchEmpty {
      var f := s.(playing := false, running := false, notifications := s.notifications + 1);
      QuietIgnoresFlags(s, f);
      EndKeepsQuiet(f, k);
    } else {
      var t := AfterTick(s, k, batchEmpty, applied, true);
      forall i: nat | i != k
        ensures Stale(t, i) == Stale(s, i) && Live(t, i, true) == Live(s, i, true)
      {
      }
    }
  }

  /** A settled batch that schedules the next tick keeps stopped loops quiet. */
  lemma ScheduleKeepsQuiet(s: LoopState, k: nat)
    requires Inv(s) && Quiet(s) && Enabled(s, BatchSettled(k)) && Current(s, k, true) && s.chains[k].phase.ok
    ensures Quiet(Step(s, BatchSettled(k), true))
  {
    var t := Step(s, BatchSettled(k), true);
    assert Live(s, k, true);
    forall i: nat | i < |t.chains| && i != k
      ensures Stale(t, i) == Stale(s, i) && !Live(t, i, true)
    {
      assert t.chains[i] == s.chains[i];
      assert !Live(s, i, true);
    }
  }

  /** Every step of the guarded loop manager keeps stopped loops quiet. */
  lemma StepKeepsQuiet(s: LoopState, a: Action)
    requires Inv(s) && Quiet(s) && Enabled(s, a)
    ensures Quiet(Step(s, a, true))
  {
    match a
    case ToggleCmd =>
      QuietIgnoresFlags(s, Step(s, a, true));
    case InitCmd =>
      QuietIgnoresFlags(s, Step(s, a, true));
    case ResetCmd =>
      StopLoopQuiet(s);
      QuietIgnoresFlags(AfterStopLoop(s), Step(s, a, true));
    case SyncCmd =>
      StopLoopQuiet(s);
      StartLoopQuiet(s);
    case DbOpened(k, dbOk, batchEmpty, applied) =>
      if !Current(s, k, true) {
        EndKeepsQuiet(s, k);
      } else if !dbOk || !s.playing {
        QuietIgnoresFlags(s, s.(running := false));
        EndKeepsQuiet(s.(running := false), k);
      } else {
        TickKeepsQuiet(s, k, batchEmpty, applied);
      }
    case TimerFired(k, batchEmpty, applied) =>
      TickKeepsQuiet(s, k, batchEmpty, applied);
    case BatchSettled(k) =>
      if !Current(s, k, true) {
        EndKeepsQuiet(s, k);
      } else if s.chains[k].phase.ok {
        ScheduleKeepsQuiet(s, k);
      } else {
        var f := s.(playing := false, running := false, notifications := s.notifications + 1);
        QuietIgnoresFlags(s, f);
        EndKeepsQuiet(f, k);
      }
  }

  lemma {:induction false} RunKeepsQuiet(s: LoopState, trace: seq<Action>)
    requires Inv(s) && Quiet(s)
    ensures Inv(Run(s, trace, true)) && Quiet(Run(s, trace, true))
    decreases |trace|
  {
    if trace != [] {
      if Enabled(s, trace[0]) {
        StepKeepsInv(s, trace[0]);
        StepKeepsQuiet(s, trace[0]);
      }
      RunKeepsQuiet(StepOrStay(s, trace[0], true), trace[1..]);
    }
  }

  /** A resumption of loop `j` changes no other loop, nor the generation. */
  lemma ResumeTouchesOnlyItself(s: LoopState, a: Action, k: nat)
    requires Enabled(s, a) && (a.DbOpened? || a.TimerFired? || a.BatchSettled?)
    requires k < |s.chains| && k != a.k
    ensures var t := Step(s, a, true);
      |t.chains| == |s.chains| && t.chains[k] == s.chains[k] && t.generation == s.generation
  {
  }

  /** A loop that is not live (ended, or stopped) stays so, and its phase can only become `Ended`. */
  lemma NotLiveStaysPut(s: LoopState, a: Action, k: nat)
    requires Inv(s) && Enabled(s, a) && k < |s.chains| && !Live(s, k, true)
    ensures var t := Step(s, a, true);
      && k < |t.chains| && !Live(t, k, true)
      && (t.chains[k].phase == s.chains[k].phase || t.chains[k].phase == Ended)
  {
    if a.DbOpened? || a.TimerFired? || a.BatchSettled? {
      if a.k == k {
        StaleLoopOnlyEnds(s, a);
      } else {
        ResumeTouchesOnlyItself(s, a, k);
      }
    } else {
      assert s.chains[k].generation <= s.generation;
    }
  }

  lemma {:induction false} NotLiveStaysPutRun(s: LoopState, trace: seq<Action>, k: nat)
    requires Inv(s) && k < |s.chains| && !Live(s, k, true)
    ensures var t := Run(s, trace, true);
      && k < |t.chains| && !Live(t, k, true)
      && (t.chains[k].phase == s.chains[k].phase || t.chains[k].phase == Ended)
    decreases |trace|
  {
    if trace != [] {
      var s1 := StepOrStay(s, trace[0], true);
      if Enabled(s, trace[0]) {
        StepKeepsInv(s, trace[0]);
        NotLiveStaysPut(s, trace[0], k);
      }
      NotLiveStaysPutRun(s1, trace[1..], k);
    }
  }

  /**
   * With the generation guard, after any interleaving `before` every loop
   * is live (at most one), ended, or stopped while waiting for `getDb()` or
   * its transaction; and whatever happens `after`, a loop that is not live
   * keeps its phase until it ends: it never pulls, applies or schedules
   * again. Each resumption of a stopped loop only ends it
   * (`StaleLoopOnlyEnds`).
   */
  lemma StoppedLoopDoesNothingMore(before: seq<Action>, after: seq<Action>, k: nat)
    ensures AtMostOneLoop(Run(Initial, before, true), true)
    ensures Quiet(Run(Initial, before, true))
    ensures var s := Run(Initial, before, true); var t := Run(Initial, before + after, true);
      k < |s.chains| && !Live(s, k, true) ==>
        && k < |t.chains| && !Live(t, k, true)
        && (t.chains[k].phase == s.chains[k].phase || t.chains[k].phase == Ended)
  {
    GuardedLoopIsUnique(before);
    RunKeepsQuiet(Initial, before);
    RunAppend(Initial, before, after, true);
    var s := Run(Initial, before, true);
    if k < |s.chains| && !Live(s, k, true) {
      NotLiveStaysPutRun(s, after, k);
    }
  }

  // ---------------------------------------------------------------------
  // The code as written
  // ---------------------------------------------------------------------

  /** Running two traces one after the other. */
  lemma {:induction false} RunAppend(s: LoopState, a: seq<Action>, b: seq<Action>, guarded: bool)
    ensures Run(s, a + b, guarded) == Run(Run(s, a, guarded), b, guarded)
    decreases |a|
  {
    if a == [] {
      assert a + b == b;
    } else {
      assert (a + b)[0] == a[0] && (a + b)[1..] == a[1..] + b;
      RunAppend(StepOrStay(s, a[0], guarded), a[1..], b, guarded);
    }
  }

  /** Start playing: the first loop opens the database and begins a batch transaction. */
  const StartPlaying: seq<Action> := [InitCmd, ToggleCmd, SyncCmd, DbOpened(0, true, false, true)]

  /** Pause and play again while that transaction is in flight. */
  const PauseAndPlay: seq<Action> := [ToggleCmd, SyncCmd, ToggleCmd, SyncCmd]

  /** The first transaction settles; the second loop opens the database; the first loop's timer fires. */
  const BothResume: seq<Action> := [BatchSettled(0), DbOpened(1, true, false, true), TimerFired(0, false, true)]

  /**
   * Pause and play while a batch transaction is in flight: `stopLoop`
   * clears `isLoopRunning` but cannot cancel the suspended tick, so the
   * next `startLoop` starts a second loop, and the first one reschedules
   * itself when its transaction settles.
   */
  const RaceTrace: seq<Action> := StartPlaying + PauseAndPlay + BothResume

  lemma StartPlayingRun(guarded: bool)
    ensures Run(Initial, StartPlaying, guarded)
         == LoopState(true, true, true, None, 1, 1, [Chain(1, Applying(true))], 2)
  {
    var s1 := StepOrStay(Initial, InitCmd, guarded);
    assert s1 == LoopState(false, true, false, None, 1, 0, [], 1);
    var s2 := StepOrStay(s1, ToggleCmd, guarded);
    assert s2 == LoopState(true, true, false, None, 1, 0, [], 2);
    var s3 := StepOrStay(s2, SyncCmd, guarded);
    assert s3 == LoopState(true, true, true, None, 1, 1, [Chain(1, AwaitingDb)], 2);
    var s4 := StepOrStay(s3, DbOpened(0, true, false, true), guarded);
    assert s4 == LoopState(true, true, true, None, 1, 1, [Chain(1, Applying(true))], 2);
    assert StartPlaying[1..][1..][1..][1..] == [];
  }

  lemma PauseAndPlayRun(guarded: bool)
    ensures Run(LoopState(true, true, true, None, 1, 1, [Chain(1, Applying(true))], 2), PauseAndPlay, guarded)
         == LoopState(true, true, true, None, 1, 3, [Chain(1, Applying(true)), Chain(3, AwaitingDb)], 4)
  {
    var s4 := LoopState(true, true, true, None, 1, 1, [Chain(1, Applying(true))], 2);
    var s5 := StepOrStay(s4, ToggleCmd, guarded);
    assert s5 == LoopState(false, true, true, None, 1, 1, [Chain(1, Applying(true))], 3);
    var s6 := StepOrStay(s5, SyncCmd, guarded);
    assert s6 == LoopState(false, true, false, None, 1, 2, [Chain(1, Applying(true))], 3);
    var s7 := StepOrStay(s6, ToggleCmd, guarded);
    assert s7 == LoopState(true, true, false, None, 1, 2, [Chain(1, Applying(true))], 4);
    var s8 := StepOrStay(s7, SyncCmd, guarded);
    assert s8 == LoopState(true, true, true, None, 1, 3, [Chain(1, Applying(true)), Chain(3, AwaitingDb)], 4);
    assert PauseAndPlay[1..][1..][1..][1..] == [];
  }

  lemma BothResumeRun(guarded: bool)
    ensures var s8 := LoopState(true, true, true, None, 1, 3, [Chain(1, Applying(true)), Chain(3, AwaitingDb)], 4);
      Run(s8, BothResume, guarded)
      == if guarded then LoopState(true, true, true, None, 1, 3, [Chain(1, Ended), Chain(3, Applying(true))], 4)
         else LoopState(true, true, true, Some(1), 2, 3, [Chain(1, Applying(true)), Chain(3, Applying(true))], 5)
  {
    var s8 := LoopState(true, true, true, None, 1, 3, [Chain(1, Applying(true)), Chain(3, AwaitingDb)], 4);
    var s9 := StepOrStay(s8, BatchSettled(0), guarded);
    var s10 := StepOrStay(s9, DbOpened(1, true, false, true), guarded);
    var s11 := StepOrStay(s10, TimerFired(0, false, true), guarded);
    if guarded {
      assert s9 == LoopState(true, true, true, None, 1, 3, [Chain(1, Ended), Chain(3, AwaitingDb)], 4);
      assert s10 == LoopState(true, true, true, None, 1, 3, [Chain(1, Ended), Chain(3, Applying(true))], 4);
      assert s11 == s10;
    } else {
      assert s9 == LoopState(true, true, true, Some(1), 2, 3, [Chain(1, Scheduled(1)), Chain(3, AwaitingDb)], 5);
      assert s10 == LoopState(true, true, true, Some(1), 2, 3, [Chain(1, Scheduled(1)), Chain(3, Applying(true))], 5);
      assert s11 == LoopState(true, true, true, Some(1), 2, 3, [Chain(1, Applying(true)), Chain(3, Applying(true))], 5);
    }
    assert BothResume[1..][1..][1..] == [];
  }

  /**
   * As written, the race trace ends with two loops live at once, each
   * inside its own batch transaction, while `isLoopRunning` names one.
   */
  lemma StaleTickStartsSecondLoop()
    ensures var s := Run(Initial, RaceTrace, false);
      && |s.chains| == 2
      && s.chains[0].phase == Applying(true) && s.chains[1].phase == Applying(true)
      && !AtMostOneLoop(s, false)
  {
    RunAppend(Initial, StartPlaying + PauseAndPlay, BothResume, false);
    RunAppend(Initial, StartPlaying, PauseAndPlay, false);
    StartPlayingRun(false);
    PauseAndPlayRun(false);
    BothResumeRun(false);
    var s := Run(Initial, RaceTrace, false);
    assert Live(s, 0, false) && Live(s, 1, false);
  }

  /** With the generation guard, the same trace ends the stale loop and leaves only the second one. */
  lemma GuardedRaceTraceEndsStaleLoop()
    ensures var s := Run(Initial, RaceTrace, true);
      && |s.chains| == 2 && s.chains[0].phase == Ended && s.chains[1].phase == Applying(true)
  {
    RunAppend(Initial, StartPlaying + PauseAndPlay, BothResume, true);
    RunAppend(Initial, StartPlaying, PauseAndPlay, true);
    StartPlayingRun(true);
    PauseAndPlayRun(true);
    BothResumeRun(true);
  }

  // ---------------------------------------------------------------------
  // The service object
  // ---------------------------------------------------------------------

  /**
   * The hook's module-level state as one object, over the engine's batch
   * cursor and the database handle. `guarded` adds the generation guard;
   * without it the methods do what the hook's code does.
   */
  class PlaybackService {
    const guarded: bool
    const cursor: EventCursor
    const db: Database
    var playing: bool
    var ready: bool
    var running: bool
    var timeout: Option<nat>
    var nextHandle: nat
    var generation: nat
    var chains: seq<Chain>
    var notifications: nat

    function State(): LoopState
      reads this
    {
      LoopState(playing, ready, running, timeout, nextHandle, generation, chains, notifications)
    }

    ghost predicate Valid()
      reads this, cursor
    {
      cursor.Valid() && (guarded ==> Inv(State()))
    }

    constructor (guarded: bool, cursor: EventCursor, db: Database)
      requires cursor.Valid()
      ensures Valid() && State() == Initial
      ensures this.guarded == guarded && this.cursor == cursor && this.db == db
    {
      this.guarded := guarded;
      this.cursor := cursor;
      this.db := db;
      playing := false;
      ready := false;
      running := false;
      timeout := None;
      nextHandle := 1;
      generation := 0;
      chains := [];
      notifications := 0;
      new;
      InitialInv();
    }

    /** `togglePlay`. */
    method TogglePlay()
      requires Valid()
      modifies this
      ensures Valid() && State() == Step(old(State()), ToggleCmd, guarded)
    {
      ghost var s := State();
      playing := !playing;
      notifications := notifications + 1;
      if guarded {
        StepKeepsInv(s, ToggleCmd);
      }
    }

    /** The initialisation effect: a no-op when already ready, otherwise marks the service ready and notifies. */
    method Init()
      requires Valid()
      modifies this
      ensures Valid() && State() == Step(old(State()), InitCmd, guarded)
    {
      ghost var s := State();
      if ready {
        return;
      }
      ready := true;
      notifications := notifications + 1;
      if guarded {
        StepKeepsInv(s, InitCmd);
      }
    }

    method StartLoop()
      modifies this
      ensures State() == AfterStartLoop(old(State()))
    {
      if running {
        return;
      }
      running := true;
      generation := generation + 1;
      chains := chains + [Chain(generation, AwaitingDb)];
    }

    method StopLoop()
      modifies this
      ensures State() == AfterStopLoop(old(State()))
    {
      if timeout.Some? {
        chains := ClearTimer(chains, timeout.value);
      }
      running := false;
      generation := generation + 1;
    }

    /** The effect on `[isReady, isPlaying]`: start the loop when both hold, stop it otherwise. */
    method SyncLoop()
      requires Valid()
      modifies this
      ensures Valid() && State() == Step(old(State()), SyncCmd, guarded)
    {
      ghost var s := State();
      if ready && playing {
        StartLoop();
      } else {
        StopLoop();
      }
      if guarded {
        StepKeepsInv(s, SyncCmd);
      }
    }

    /**
     * `reset`: stops the loop, clears `globalIsPlaying`, rewinds the engine
     * and reseeds the database to `baseline`, then notifies.
     */
    method Reset(baseline: Store)
      requires Valid()
      modifies this, cursor, db
      ensures Valid() && State() == Step(old(State()), ResetCmd, guarded)
      ensures cursor.position == 0 && db.Contents() == baseline
    {
      ghost var s := State();
      StopLoop();
      playing := false;
      cursor.Rewind();
      db.Restore(baseline);
      notifications := notifications + 1;
      if guarded {
        StepKeepsInv(s, ResetCmd);
      }
    }

    /**
     * `tick` of loop `k` up to its `await processEvents(...)`: pulls a
     * batch of up to 20 events when playing and applies it in one
     * transaction; an empty batch finishes playback.
     */
    method Tick(k: nat) returns (batch: seq<StreamEvent>, err: Option<ApplyError>)
      requires cursor.Valid() && k < |chains|
      modifies this, cursor, db
      ensures cursor.Valid()
      ensures State() == AfterTick(old(State()), k, batch == [], err.None?, guarded)
      ensures TickPulls(old(State()), k, guarded) ==>
                batch == Slice(cursor.log, old(cursor.position), BatchSize)
                && cursor.position == old(cursor.position) + |batch|
      ensures !TickPulls(old(State()), k, guarded) ==> batch == [] && cursor.position == old(cursor.position)
      ensures ApplyAll(old(db.Contents()), batch).Success? ==>
                err.None? && db.Contents() == ApplyAll(old(db.Contents()), batch).value
      ensures ApplyAll(old(db.Contents()), batch).Failure? ==>
                err == Some(ApplyAll(old(db.Contents()), batch).error) && db.Contents() == old(db.Contents())
    {
      batch, err := [], None;
      if guarded && chains[k].generation != generation {
        chains := chains[k := chains[k].(phase := Ended)];
        return;
      }
      if !playing {
        running := false;
        chains := chains[k := chains[k].(phase := Ended)];
        return;
      }
      batch := cursor.NextBatch(BatchSize);
      if |batch| == 0 {
        playing := false;
        running := false;
        notifications := notifications + 1;
        chains := chains[k := chains[k].(phase := Ended)];
        return;
      }
      err := ProcessEvents(db, batch);
      chains := chains[k := chains[k].(phase := Applying(err.None?))];
    }

    /** `startLoop` resuming after `await getDb()`, which succeeded when `dbOk`. */
    method OnDbOpened(k: nat, dbOk: bool) returns (batch: seq<StreamEvent>, err: Option<ApplyError>)
      requires Valid() && k < |chains| && chains[k].phase == AwaitingDb
      modifies this, cursor, db
      ensures Valid() && State() == Step(old(State()), DbOpened(k, dbOk, batch == [], err.None?), guarded)
      ensures Current(old(State()), k, guarded) && dbOk && old(playing) ==>
                batch == Slice(cursor.log, old(cursor.position), BatchSize)
                && cursor.position == old(cursor.position) + |batch|
      ensures !(Current(old(State()), k, guarded) && dbOk && old(playing)) ==>
                batch == [] && cursor.position == old(cursor.position)
      ensures ApplyAll(old(db.Contents()), batch).Success? ==>
                err.None? && db.Contents() == ApplyAll(old(db.Contents()), batch).value
      ensures ApplyAll(old(db.Contents()), batch).Failure? ==>
                err == Some(ApplyAll(old(db.Contents()), batch).error) && db.Contents() == old(db.Contents())
    {
      ghost var s := State();
      batch, err := [], None;
      if guarded && chains[k].generation != generation {
        chains := chains[k := chains[k].(phase := Ended)];
      } else if !dbOk || !playing {
        running := false;
        chains := chains[k := chains[k].(phase := Ended)];
      } else {
        batch, err := Tick(k);
      }
      if guarded {
        StepKeepsInv(s, DbOpened(k, dbOk, batch == [], err.None?));
      }
    }

    /** The timer of loop `k` fires and runs `tick`. */
    method OnTimer(k: nat) returns (batch: seq<StreamEvent>, err: Option<ApplyError>)
      requires Valid() && k < |chains| && chains[k].phase.Scheduled?
      modifies this, cursor, db
      ensures Valid() && State() == Step(old(State()), TimerFired(k, batch == [], err.None?), guarded)
      ensures TickPulls(old(State()), k, guarded) ==>
                batch == Slice(cursor.log, old(cursor.position), BatchSize)
                && cursor.position == old(cursor.position) + |batch|
      ensures !TickPulls(old(State()), k, guarded) ==> batch == [] && cursor.position == old(cursor.position)
      ensures ApplyAll(old(db.Contents()), batch).Success? ==>
                err.None? && db.Contents() == ApplyAll(old(db.Contents()), batch).value
      ensures ApplyAll(old(db.Contents()), batch).Failure? ==>
                err == Some(ApplyAll(old(db.Contents()), batch).error) && db.Contents() == old(db.Contents())
    {
      ghost var s := State();
      batch, err := Tick(k);
      if guarded {
        StepKeepsInv(s, TimerFired(k, batch == [], err.None?));
      }
    }

    /**
     * `tick` of loop `k` resuming once its transaction settled: on success
     * it notifies and schedules the next tick in 50 ms; on failure it clears
     * both flags and notifies.
     */
    method OnBatchSettled(k: nat)
      requires Valid() && k < |chains| && chains[k].phase.Applying?
      modifies this
      ensures Valid() && State() == Step(old(State()), BatchSettled(k), guarded)
    {
      ghost var s := State();
      if guarded && chains[k].generation != generation {
        chains := chains[k := chains[k].(phase := Ended)];
        assert State() == End(s, k);
      } else if chains[k].phase.ok {
        notifications := notifications + 1;
        timeout := Some(nextHandle);
        chains := chains[k := chains[k].(phase := Scheduled(nextHandle))];
        nextHandle := nextHandle + 1;
      } else {
        playing := false;
        running := false;
        notifications := notifications + 1;
        chains := chains[k := chains[k].(phase := Ended)];
        assert State() == End(s.(playing := false, running := false, notifications := s.notifications + 1), k);
      }
      assert State() == Step(s, BatchSettled(k), guarded);
      if guarded {
        StepKeepsInv(s, BatchSettled(k));
      }
    }
  }
}
