/** Start against stop: the coordinator's goroutines, lock sections and wait group
    (coordinator.go), under any interleaving. */
module Shutdown {
  import opened Sequences

  /** A poller goroutine: installed under the lock, counted and launched, returned from run,
      cleared from `active`, counted out. */
  datatype Stage = Installed | Live | Returned | Cleared | Gone

  datatype Poller = Poller(shard: string, stage: Stage, draining: bool)

  /** The thread in start(). */
  datatype Starter = NotCalled | Discovering | StartDone

  /** The run goroutine: between store calls, holding a fresh claim, or having installed a
      poller it has not counted yet. */
  datatype Loop = NotRunning | Idle | Claimed(shard: string) | Launching(pid: nat) | LoopExited

  /** The thread in drainAndStop(). */
  datatype Stopper = NotStopping | Draining(pending: set<nat>) | DrainDone

  datatype State = State(
    stopped: bool, starter: Starter, loop: Loop, stopper: Stopper,
    active: map<string, nat>, pollers: seq<Poller>, wg: int)

  const INITIAL := State(false, NotCalled, NotRunning, NotStopping, map[], [], 0)

  datatype Step =
    | StartEnter                   // first lock section of start
    | StartDiscovered(ok: bool)    // discoverShards returned; second lock section
    | Try(shard: string)           // tryAcquire: not running here, and the store agreed
    | Install                      // startPoller's lock section
    | Launch                       // wg.Add and go
    | Leave                        // the run loop sees its context done
    | Return(pid: nat)
    | Clear(pid: nat)              // the exit defer, generation check included
    | CountOut(pid: nat)
    | ReleasePoller(pid: nat)      // rebalancing drains one poller
    | StopBegin                    // drainAndStop's lock section
    | StopDrain(pid: nat)
    | StopEnd

  predicate Enabled(s: State, step: Step) {
    match step
    case StartEnter => s.starter.NotCalled?
    case StartDiscovered(_) => s.starter.Discovering?
    case Try(shard) => s.loop.Idle? && shard !in s.active
    case Install => s.loop.Claimed?
    case Launch => s.loop.Launching? && s.loop.pid < |s.pollers|
    case Leave => s.loop.Idle?
    case Return(pid) => pid < |s.pollers| && s.pollers[pid].stage.Live?
    case Clear(pid) => pid < |s.pollers| && s.pollers[pid].stage.Returned?
    case CountOut(pid) => pid < |s.pollers| && s.pollers[pid].stage.Cleared?
    case ReleasePoller(pid) => pid < |s.pollers| && pid in s.active.Values
    case StopBegin => s.stopper.NotStopping?
    case StopDrain(pid) => s.stopper.Draining? && pid in s.stopper.pending && pid < |s.pollers|
    case StopEnd => s.stopper == Draining({})
  }

  function At(s: State, pid: nat, stage: Stage): seq<Poller>
    requires pid < |s.pollers|
  {
    s.pollers[pid := s.pollers[pid].(stage := stage)]
  }

  function Drained(s: State, pid: nat): seq<Poller>
    requires pid < |s.pollers|
  {
    s.pollers[pid := s.pollers[pid].(draining := true)]
  }

  function Do(s: State, step: Step): State
    requires Enabled(s, step)
  {
    match step
    case StartEnter => s.(starter := if s.stopped then StartDone else Discovering)
    case StartDiscovered(ok) =>
      if !ok || s.stopped then s.(starter := StartDone)
      else s.(starter := StartDone, loop := Idle, wg := s.wg + 1)
    case Try(shard) => s.(loop := Claimed(shard))
    case Install =>
      if s.stopped then s.(loop := Idle)
      else
        var pid := |s.pollers|;
        s.(loop := Launching(pid), active := s.active[s.loop.shard := pid],
           pollers := s.pollers + [Poller(s.loop.shard, Installed, false)])
    case Launch => s.(loop := Idle, wg := s.wg + 1, pollers := At(s, s.loop.pid, Live))
    case Leave => s.(loop := LoopExited, wg := s.wg - 1)
    case Return(pid) => s.(pollers := At(s, pid, Returned))
    case Clear(pid) =>
      var shard := s.pollers[pid].shard;
      var mine := shard in s.active && s.active[shard] == pid;
      s.(pollers := At(s, pid, Cleared), active := if mine then s.active - {shard} else s.active)
    case CountOut(pid) => s.(pollers := At(s, pid, Gone), wg := s.wg - 1)
    case ReleasePoller(pid) => s.(pollers := Drained(s, pid))
    case StopBegin => s.(stopped := true, stopper := Draining(s.active.Values))
    case StopDrain(pid) =>
      s.(stopper := Draining(s.stopper.pending - {pid}), pollers := Drained(s, pid))
    case StopEnd => s.(stopper := DrainDone)
  }

  // ------------------------------------------------------------ the invariant

  predicate Counted(p: Poller) {
    p.stage.Live? || p.stage.Returned? || p.stage.Cleared?
  }

  predicate Running(p: Poller) {
    p.stage.Installed? || p.stage.Live? || p.stage.Returned?
  }

  function Count(pollers: seq<Poller>): nat {
    if pollers == [] then 0
    else Count(pollers[..|pollers| - 1]) + if Counted(pollers[|pollers| - 1]) then 1 else 0
  }

  predicate LoopAlive(s: State) {
    s.loop.Idle? || s.loop.Claimed? || s.loop.Launching?
  }

  predicate Names(s: State, r: string, pid: nat) {
    pid < |s.pollers| && s.pollers[pid].shard == r && Running(s.pollers[pid])
  }

  predicate Named(s: State, pid: nat)
    requires pid < |s.pollers|
  {
    s.pollers[pid].shard in s.active && s.active[s.pollers[pid].shard] == pid
  }

  predicate ToldToDrain(s: State, pid: nat)
    requires pid < |s.pollers|
  {
    s.pollers[pid].draining || (s.stopper.Draining? && pid in s.stopper.pending)
  }

  /** `active` names exactly the running pollers. */
  ghost predicate ActiveOk(s: State) {
    && (forall r :: r in s.active ==> Names(s, r, s.active[r]))
    && (forall pid :: 0 <= pid < |s.pollers| && Running(s.pollers[pid]) ==> Named(s, pid))
  }

  ghost predicate LoopOk(s: State) {
    && (s.loop.Claimed? ==> s.loop.shard !in s.active)
    && (forall pid :: 0 <= pid < |s.pollers| && s.pollers[pid].stage.Installed? ==> s.loop == Launching(pid))
    && (s.loop.Launching? ==> s.loop.pid < |s.pollers| && s.pollers[s.loop.pid].stage.Installed?)
    && (!s.starter.StartDone? ==> s.loop.NotRunning?)
  }

  /** Once stopping, every running poller drains or is about to be told to. */
  ghost predicate StopOk(s: State) {
    && (s.stopped <==> !s.stopper.NotStopping?)
    && (s.stopped ==> forall pid :: 0 <= pid < |s.pollers| && Running(s.pollers[pid]) ==> ToldToDrain(s, pid))
    && (s.stopper.Draining? ==> forall pid :: pid in s.stopper.pending ==> pid < |s.pollers|)
  }

  ghost predicate Inv(s: State) {
    && s.wg == Count(s.pollers) + (if LoopAlive(s) then 1 else 0)
    && ActiveOk(s) && LoopOk(s) && StopOk(s)
  }

  lemma {:induction false} CountUpdate(pollers: seq<Poller>, pid: nat, p: Poller)
    requires pid < |pollers|
    ensures Count(pollers[pid := p]) + (if Counted(pollers[pid]) then 1 else 0)
      == Count(pollers) + (if Counted(p) then 1 else 0)
  {
    var n := |pollers| - 1;
    if pid == n {
      assert pollers[pid := p][..n] == pollers[..n];
    } else {
      assert pollers[pid := p][..n] == pollers[..n][pid := p];
      CountUpdate(pollers[..n], pid, p);
    }
  }

  lemma CountAdd(pollers: seq<Poller>, p: Poller)
    ensures Count(pollers + [p]) == Count(pollers) + if Counted(p) then 1 else 0
  {
    assert (pollers + [p])[..|pollers|] == pollers;
  }

  lemma InstallInv(s: State)
    requires Inv(s) && Enabled(s, Install)
    ensures Inv(Do(s, Install))
  {
    if !s.stopped {
      CountAdd(s.pollers, Poller(s.loop.shard, Installed, false));
    }
  }

  lemma LaunchInv(s: State)
    requires Inv(s) && Enabled(s, Launch)
    ensures Inv(Do(s, Launch))
  {
    var pid := s.loop.pid;
    CountUpdate(s.pollers, pid, s.pollers[pid].(stage := Live));
  }

  lemma ReturnInv(s: State, pid: nat)
    requires Inv(s) && Enabled(s, Return(pid))
    ensures Inv(Do(s, Return(pid)))
  {
    CountUpdate(s.pollers, pid, s.pollers[pid].(stage := Returned));
  }

  lemma ClearInv(s: State, pid: nat)
    requires Inv(s) && Enabled(s, Clear(pid))
    ensures Inv(Do(s, Clear(pid)))
  {
    CountUpdate(s.pollers, pid, s.pollers[pid].(stage := Cleared));
  }

  lemma CountOutInv(s: State, pid: nat)
    requires Inv(s) && Enabled(s, CountOut(pid))
    ensures Inv(Do(s, CountOut(pid)))
  {
    CountUpdate(s.pollers, pid, s.pollers[pid].(stage := Gone));
  }

  lemma ReleaseInv(s: State, pid: nat)
    requires Inv(s) && Enabled(s, ReleasePoller(pid))
    ensures Inv(Do(s, ReleasePoller(pid)))
  {
    CountUpdate(s.pollers, pid, s.pollers[pid].(draining := true));
  }

  lemma StopDrainInv(s: State, pid: nat)
    requires Inv(s) && Enabled(s, StopDrain(pid))
    ensures Inv(Do(s, StopDrain(pid)))
  {
    CountUpdate(s.pollers, pid, s.pollers[pid].(draining := true));
  }

  lemma OtherStepInv(s: State, step: Step)
    requires Inv(s) && Enabled(s, step)
    requires step.StartEnter? || step.StartDiscovered? || step.Try? || step.Leave? || step.StopBegin? || step.StopEnd?
    ensures Inv(Do(s, step))
  {
  }

  lemma StepInv(s: State, step: Step)
    requires Inv(s) && Enabled(s, step)
    ensures Inv(Do(s, step))
  {
    if step.Install? {
      InstallInv(s);
    } else if step.Launch? {
      LaunchInv(s);
    } else if step.Return? {
      ReturnInv(s, step.pid);
    } else if step.Clear? {
      ClearInv(s, step.pid);
    } else if step.CountOut? {
      CountOutInv(s, step.pid);
    } else if step.ReleasePoller? {
      ReleaseInv(s, step.pid);
    } else if step.StopDrain? {
      StopDrainInv(s, step.pid);
    } else {
      OtherStepInv(s, step);
    }
  }

  // ------------------------------------------------------------ whole runs

  ghost predicate CanRun(s: State, steps: seq<Step>)
    decreases |steps|
  {
    steps == [] || (Enabled(s, steps[0]) && CanRun(Do(s, steps[0]), steps[1..]))
  }

  ghost function Outcome(s: State, steps: seq<Step>): State
    requires CanRun(s, steps)
    decreases |steps|
  {
    if steps == [] then s else Outcome(Do(s, steps[0]), steps[1..])
  }

  lemma {:induction false} RunInv(s: State, steps: seq<Step>)
    requires Inv(s) && CanRun(s, steps)
    ensures Inv(Outcome(s, steps))
    decreases |steps|
  {
    if steps != [] {
      StepInv(s, steps[0]);
      RunInv(Do(s, steps[0]), steps[1..]);
    }
  }

  /** Under any interleaving no shard ever has two running pollers on this worker. */
  lemma OnePollerPerShard(steps: seq<Step>, a: nat, b: nat)
    requires CanRun(INITIAL, steps)
    requires a < |Outcome(INITIAL, steps).pollers| && b < |Outcome(INITIAL, steps).pollers|
    requires Running(Outcome(INITIAL, steps).pollers[a]) && Running(Outcome(INITIAL, steps).pollers[b])
    requires Outcome(INITIAL, steps).pollers[a].shard == Outcome(INITIAL, steps).pollers[b].shard
    ensures a == b
  {
    RunInv(INITIAL, steps);
    var s := Outcome(INITIAL, steps);
    assert Named(s, a) && Named(s, b);
  }

  predicate AllThrough(s: State) {
    !LoopAlive(s) && forall pid :: 0 <= pid < |s.pollers| ==> s.pollers[pid].stage.Gone?
  }

  lemma {:induction false} CountZero(pollers: seq<Poller>)
    ensures Count(pollers) == 0 <==> forall pid :: 0 <= pid < |pollers| ==> !Counted(pollers[pid])
  {
    if pollers != [] {
      var n := |pollers| - 1;
      CountZero(pollers[..n]);
      assert forall pid :: 0 <= pid < n ==> pollers[pid] == pollers[..n][pid];
      if Count(pollers) != 0 && !Counted(pollers[n]) {
        var pid :| 0 <= pid < n && Counted(pollers[..n][pid]);
        assert Counted(pollers[pid]);
      }
    }
  }

  lemma ZeroMeansThrough(s: State)
    requires Inv(s)
    ensures s.wg >= 0
    ensures s.wg == 0 <==> AllThrough(s)
  {
    CountZero(s.pollers);
    if s.wg == 0 {
      forall pid | 0 <= pid < |s.pollers|
        ensures s.pollers[pid].stage.Gone?
      {
        assert !Counted(s.pollers[pid]);
      }
    }
  }

  /** The wait group never goes negative, and stands at zero exactly when the run loop and every
      poller ever installed are through. */
  lemma WaitGroupCounts(steps: seq<Step>)
    requires CanRun(INITIAL, steps)
    ensures Outcome(INITIAL, steps).wg >= 0
    ensures Outcome(INITIAL, steps).wg == 0 <==> AllThrough(Outcome(INITIAL, steps))
  {
    RunInv(INITIAL, steps);
    ZeroMeansThrough(Outcome(INITIAL, steps));
  }

  predicate SameShards(p: seq<Poller>, q: seq<Poller>) {
    |p| == |q| && forall pid :: 0 <= pid < |p| ==> p[pid].shard == q[pid].shard
  }

  lemma StoppedStep(s: State, step: Step)
    requires Inv(s) && s.stopped && Enabled(s, step)
    ensures Do(s, step).stopped && SameShards(s.pollers, Do(s, step).pollers)
    ensures s.wg == 0 ==> Do(s, step).wg == 0
  {
    ZeroMeansThrough(s);
  }

  lemma {:induction false} StoppedRun(s: State, steps: seq<Step>)
    requires Inv(s) && s.stopped && CanRun(s, steps)
    ensures SameShards(s.pollers, Outcome(s, steps).pollers)
    ensures s.wg == 0 ==> Outcome(s, steps).wg == 0
    decreases |steps|
  {
    if steps != [] {
      StepInv(s, steps[0]);
      StoppedStep(s, steps[0]);
      StoppedRun(Do(s, steps[0]), steps[1..]);
    }
  }

  /** Once `stopped` is set, no later step of anyone installs a poller, and if the wait group
      has reached zero it never leaves it: no Add can race the wait. */
  lemma NothingStartsAfterStop(before: seq<Step>, after: seq<Step>)
    requires CanRun(INITIAL, before) && Outcome(INITIAL, before).stopped
    requires CanRun(Outcome(INITIAL, before), after)
    ensures var s := Outcome(INITIAL, before);
      && SameShards(s.pollers, Outcome(s, after).pollers)
      && (s.wg == 0 ==> Outcome(s, after).wg == 0)
  {
    RunInv(INITIAL, before);
    StoppedRun(Outcome(INITIAL, before), after);
  }

  /** When drainAndStop has returned, whatever else was interleaved with it, every poller still
      running has been told to drain; none was installed in between and missed. */
  lemma NobodyMissed(steps: seq<Step>, pid: nat)
    requires CanRun(INITIAL, steps) && Outcome(INITIAL, steps).stopper.DrainDone?
    requires pid < |Outcome(INITIAL, steps).pollers| && Running(Outcome(INITIAL, steps).pollers[pid])
    ensures Outcome(INITIAL, steps).pollers[pid].draining
  {
    RunInv(INITIAL, steps);
    assert ToldToDrain(Outcome(INITIAL, steps), pid);
  }

  // ------------------------------------------------------------ shutdown comes to an end

  /** What a worker still does once stopped, but for claims already planned and repeated drains. */
  predicate WindingDown(step: Step) {
    !step.Try? && !step.ReleasePoller?
  }

  /** Everything is through and drainAndStop has returned. */
  predicate Finished(s: State) {
    AllThrough(s) && s.stopper.DrainDone?
  }

  function StagesLeft(p: Poller): nat {
    match p.stage
    case Installed => 4
    case Live => 3
    case Returned => 2
    case Cleared => 1
    case Gone => 0
  }

  function AllStagesLeft(pollers: seq<Poller>): nat {
    if pollers == [] then 0 else AllStagesLeft(pollers[..|pollers| - 1]) + StagesLeft(pollers[|pollers| - 1])
  }

  /** An upper bound on the steps still to come. */
  function Left(s: State): nat {
    AllStagesLeft(s.pollers)
    + (if s.loop.Claimed? || s.loop.Launching? then 2 else if s.loop.Idle? then 1 else 0)
    + (if s.starter.NotCalled? then 2 else if s.starter.Discovering? then 1 else 0)
    + (if s.stopper.Draining? then |s.stopper.pending| + 1 else 0)
  }

  lemma {:induction false} StagesUpdate(pollers: seq<Poller>, pid: nat, p: Poller)
    requires pid < |pollers|
    ensures AllStagesLeft(pollers[pid := p]) + StagesLeft(pollers[pid]) == AllStagesLeft(pollers) + StagesLeft(p)
  {
    var n := |pollers| - 1;
    if pid == n {
      assert pollers[pid := p][..n] == pollers[..n];
    } else {
      assert pollers[pid := p][..n] == pollers[..n][pid := p];
      StagesUpdate(pollers[..n], pid, p);
    }
  }

  lemma StepLowers(s: State, step: Step)
    requires Inv(s) && s.stopped && Enabled(s, step) && WindingDown(step)
    ensures Do(s, step).stopped && Left(Do(s, step)) < Left(s)
  {
    match step
    case Launch => StagesUpdate(s.pollers, s.loop.pid, s.pollers[s.loop.pid].(stage := Live));
    case Return(pid) => StagesUpdate(s.pollers, pid, s.pollers[pid].(stage := Returned));
    case Clear(pid) => StagesUpdate(s.pollers, pid, s.pollers[pid].(stage := Cleared));
    case CountOut(pid) => StagesUpdate(s.pollers, pid, s.pollers[pid].(stage := Gone));
    case StopDrain(pid) => StagesUpdate(s.pollers, pid, s.pollers[pid].(draining := true));
    case _ =>
  }

  /** Until it is finished somebody can always take a step. */
  lemma NotStuck(s: State) returns (step: Step)
    requires Inv(s) && s.stopped && !Finished(s)
    ensures Enabled(s, step) && WindingDown(step)
  {
    if s.loop.Claimed? {
      step := Install;
    } else if s.loop.Launching? {
      step := Launch;
    } else if s.loop.Idle? {
      step := Leave;
    } else if pid: nat :| pid < |s.pollers| && !s.pollers[pid].stage.Gone? {
      step := if s.pollers[pid].stage.Live? then Return(pid) else if s.pollers[pid].stage.Returned? then Clear(pid) else CountOut(pid);
    } else if s.stopper.pending == {} {
      step := StopEnd;
    } else {
      var pid :| pid in s.stopper.pending;
      step := StopDrain(pid);
    }
  }

  /** From every state in which stop has begun, every run of such steps is bounded ... */
  lemma {:induction false} WindDownBounded(s: State, steps: seq<Step>)
    requires Inv(s) && s.stopped && CanRun(s, steps) && forall k :: 0 <= k < |steps| ==> WindingDown(steps[k])
    ensures |steps| <= Left(s)
    decreases |steps|
  {
    if steps != [] {
      StepLowers(s, steps[0]);
      StepInv(s, steps[0]);
      WindDownBounded(Do(s, steps[0]), steps[1..]);
    }
  }

  /** ... and whatever was done so far, it can be gone on with until everything is through and the wait
      group stands at zero: shutdown never deadlocks. */
  lemma {:induction false} ShutdownCompletes(s: State) returns (steps: seq<Step>)
    requires Inv(s) && s.stopped
    ensures CanRun(s, steps) && forall k :: 0 <= k < |steps| ==> WindingDown(steps[k])
    ensures Finished(Outcome(s, steps)) && Outcome(s, steps).wg == 0
    decreases Left(s)
  {
    if Finished(s) {
      ZeroMeansThrough(s);
      steps := [];
    } else {
      var step := NotStuck(s);
      StepLowers(s, step);
      StepInv(s, step);
      var rest := ShutdownCompletes(Do(s, step));
      steps := [step] + rest;
      assert steps[1..] == rest;
    }
  }

  /** So it is for every interleaving of start, run loop, pollers and stop. */
  lemma StopAlwaysCompletes(before: seq<Step>) returns (steps: seq<Step>)
    requires CanRun(INITIAL, before) && Outcome(INITIAL, before).stopped
    ensures var s := Outcome(INITIAL, before);
      && CanRun(s, steps) && Finished(Outcome(s, steps)) && Outcome(s, steps).wg == 0
      && forall more :: CanRun(s, more) && (forall k :: 0 <= k < |more| ==> WindingDown(more[k])) ==> |more| <= Left(s)
  {
    RunInv(INITIAL, before);
    var s := Outcome(INITIAL, before);
    steps := ShutdownCompletes(s);
    forall more | CanRun(s, more) && forall k :: 0 <= k < |more| ==> WindingDown(more[k])
      ensures |more| <= Left(s)
    {
      WindDownBounded(s, more);
    }
  }
}
