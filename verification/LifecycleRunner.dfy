/**
 The lifecycle runner as it executes: nested loops over stages and command groups that keep an
 in-memory checkpoint and store it before and after every group. The object stands for the state
 directory; its ghost `trace` shows that whatever the stores, the children, the canceller or a
 crash do, every change is a step of the protocol.
 */
module LifecycleRunner {
  import opened Wrappers
  import opened Lifecycle

  datatype RunResult =
    | Returned(state: Checkpoint)
    | InvalidStages
    | AlreadyRunning
    | MismatchedPlan
    | IndeterminateResult
    | CommandFailed(stage: Stage, command: nat)
    | StoppedEarly  // a failed store or environment load, or a crash

  ghost predicate RanksIncrease(stages: seq<StagePlan>) {
    forall i, j :: 0 <= i < j < |stages| ==> stages[i].stage.Rank() < stages[j].stage.Rank()
  }

  lemma RankIsPlace(stage: Stage, place: nat)
    requires place < 5
    ensures stage == STAGE_ORDER[place] <==> stage.Rank() == place
  {
  }

  /** Increasing ranks are exactly the order of the stages. */
  lemma RanksIncreaseInOrder(stages: seq<StagePlan>)
    ensures RanksIncrease(stages) <==> InStageOrder(stages)
  {
    if RanksIncrease(stages) {
      var at := seq(|stages|, i requires 0 <= i < |stages| => stages[i].stage.Rank());
      forall i | 0 <= i < |stages|
        ensures at[i] < 5 && stages[i].stage == STAGE_ORDER[at[i]]
      {
        RankIsPlace(stages[i].stage, at[i]);
      }
      assert PlacedAt(stages, at);
    }
    if InStageOrder(stages) {
      var at :| PlacedAt(stages, at);
      forall i | 0 <= i < |stages|
        ensures stages[i].stage.Rank() == at[i]
      {
        RankIsPlace(stages[i].stage, at[i]);
      }
    }
  }

  /** The stage part of `validate_request`: one pass remembering the previous rank. */
  method ValidateStages(stages: seq<StagePlan>) returns (ok: bool)
    ensures ok <==> InStageOrder(stages)
  {
    RanksIncreaseInOrder(stages);
    var previous: Option<nat> := None;
    for i := 0 to |stages|
      invariant RanksIncrease(stages[..i])
      invariant previous == if i == 0 then None else Some(stages[i - 1].stage.Rank())
    {
      var rank := stages[i].stage.Rank();
      if previous.Some? && previous.value >= rank {
        assert stages[i - 1].stage.Rank() >= stages[i].stage.Rank();
        return false;
      }
      assert stages[..i + 1] == stages[..i] + [stages[i]];
      assert forall k :: 0 <= k < i ==> stages[..i][k].stage.Rank() <= stages[i - 1].stage.Rank();
      previous := Some(rank);
    }
    assert stages[..|stages|] == stages;
    return true;
  }

  class StateDirectory {
    var disk: Option<Checkpoint>
    var cancel: bool
    ghost var runner: Runner
    ghost var log: seq<Event>
    ghost var trace: seq<World>

    ghost function Now(): World
      reads this
    {
      World(disk, cancel, runner, log)
    }

    ghost predicate Valid()
      reads this
    {
      IsRun(trace) && trace[|trace| - 1] == Now()
    }

    constructor ()
      ensures Valid() && Now() == INITIAL
    {
      disk, cancel, runner, log := None, false, Idle, [];
      trace := [INITIAL];
    }

    /** Notes that the current world followed the last one by a step. */
    ghost method Record()
      requires IsRun(trace) && Step(trace[|trace| - 1], Now())
      modifies this`trace
      ensures Valid() && trace == old(trace) + [Now()]
    {
      RunGrows(trace, Now());
      trace := trace + [Now()];
    }

    /** `cancel_lifecycle` writes the cancel file, at any time and without the lock. */
    method Cancel()
      requires Valid()
      modifies this`cancel, this`trace
      ensures Valid() && cancel && old(trace) <= trace
    {
      cancel := true;
      Record();
    }

    /** Another process may ask for cancellation between any two statements of the runner. */
    method Interfere(calm: bool)
      requires Valid()
      modifies this`cancel, this`trace
      ensures Valid() && old(trace) <= trace && (old(cancel) ==> cancel)
      ensures calm ==> cancel == old(cancel)
    {
      var asked: bool := *;
      if asked && !calm {
        Cancel();
      }
    }

    /** Leaves the lock: a return, an error or the death of the process. */
    ghost method Release()
      requires Valid()
      modifies this`runner, this`trace
      ensures Valid() && old(trace) <= trace && runner.Idle?
    {
      runner := Idle;
      Record();
    }

    /**
     `store_state`: the atomic replacement may fail before the rename, fail after it, or succeed.
     Only a full success lets the runner continue.
     */
    method Store(state: Checkpoint, ghost next: Runner, calm: bool) returns (ok: bool)
      requires Valid() && Step(Now(), Now().(disk := Some(state), runner := next))
      modifies this
      ensures Valid() && old(trace) <= trace && log == old(log)
      ensures disk == Some(state) || disk == old(disk)
      ensures ok ==> disk == Some(state) && runner == next && cancel == old(cancel)
      ensures !ok ==> runner.Idle?
      ensures calm ==> ok
    {
      var renamed: bool := *;
      if !renamed && !calm {
        Release();
        return false;
      }
      disk, runner := Some(state), next;
      Record();
      ok := *;
      ok := ok || calm;
      if !ok {
        Release();
      }
    }

    /** One command group: children are started, then awaited; the process may die at any point. */
    method Execute(calm: bool) returns (outcome: Option<Outcome>)
      requires Valid() && runner.Armed? && disk.Some?
      modifies this`cancel, this`runner, this`log, this`trace
      ensures Valid() && old(trace) <= trace && (old(cancel) ==> cancel)
      ensures outcome.Some? ==> runner == Finished(outcome.value)
      ensures outcome.None? ==> runner.Idle?
      ensures calm ==> outcome == Some(Success) && disk == old(disk) && cancel == old(cancel)
    {
      runner, log := Waiting, log + [Started(Group(disk.value.stage, disk.value.command))];
      Record();
      Interfere(calm);
      var survived: bool := *;
      if !survived && !calm {
        Release();
        return None;
      }
      var result: Outcome := *;
      if calm || (result.Stopped? && !cancel) {
        result := Success;
      }
      runner := Finished(result);
      log := log + [Ended(Group(disk.value.stage, disk.value.command), result)];
      Record();
      survived := *;
      if !survived && !calm {
        Release();
        return None;
      }
      return Some(result);
    }

    /** `load_or_create`, the plan check, and settling an abandoned `Running` checkpoint. */
    method Open(request: Request, calm: bool) returns (r: Result<Checkpoint, RunResult>)
      requires Valid() && runner.Holding?
      modifies this
      ensures Valid() && old(trace) <= trace && log == old(log)
      ensures r.Ok? ==> disk == Some(r.value) && r.value.plan == request && runner.Holding? && !r.value.phase.Running?
      ensures r.Err? ==> runner.Idle? && (r.error.MismatchedPlan? || r.error.StoppedEarly?)
      ensures r.Err? && r.error.MismatchedPlan? ==> disk == old(disk)
      ensures r.Err? && r.error.MismatchedPlan? <==> old(disk).Some? && old(disk).value.plan != request
      ensures old(disk).Some? ==>
                || disk == old(disk)
                || (disk.Some? && Inspect(old(disk), request, false).Ok?
                    && disk.value.phase == Inspect(old(disk), request, false).value.phase)
      ensures r.Ok? && old(disk).Some? ==> r.value.phase == Inspect(old(disk), request, false).value.phase
      ensures calm ==> cancel == old(cancel) && (r.Ok? || r.error.MismatchedPlan?)
      ensures calm && old(disk).None? ==> r == Ok(FreshCheckpoint(request))
    {
      var state;
      if disk.Some? {
        state := disk.value;
      } else {
        state := FreshCheckpoint(request);
        var created := Store(state, Holding, calm);
        if !created {
          return Err(StoppedEarly);
        }
      }
      if state.plan != request {
        Release();
        return Err(MismatchedPlan);
      }
      if state.phase.Running? {
        state := state.(phase := state.Interrupted(), pid := None, failure := Some("interrupted"));
        var settled := Store(state, Holding, calm);
        if !settled {
          return Err(StoppedEarly);
        }
      }
      return Ok(state);
    }

    /** The answer a caller gets agrees with the checkpoint left on disk. */
    static ghost predicate Matches(r: RunResult, c: Checkpoint) {
      match r
      case Returned(state) => state == c && (c.phase.Complete? || c.phase.Failed? || c.phase.Cancelled?)
      case IndeterminateResult => c.phase.Indeterminate?
      case CommandFailed(stage, command) =>
        c.phase.Failed? && command == c.command && c.stage < |c.plan.stages| && stage == c.plan.stages[c.stage].stage
      case StoppedEarly => true
      case _ => false
    }

    /** The look for the cancel file before a group; `true` means that the group may start. */
    method MayStart(state: Checkpoint, calm: bool) returns (clear: bool, stop: RunResult)
      requires Valid() && runner.Holding? && disk == Some(state) && state.phase.Resumable() && state.HasCommand()
      modifies this
      ensures Valid() && old(trace) <= trace && log == old(log)
      ensures clear ==> runner.Cleared? && disk == Some(state) && (calm ==> cancel == old(cancel))
      ensures !clear ==> runner.Idle? && disk.Some? && Matches(stop, disk.value)
      ensures calm && !old(cancel) ==> clear
    {
      Interfere(calm);
      stop := StoppedEarly;
      if cancel {
        var next := state.(phase := Cancelled, pid := None);
        var halted := Store(next, Holding, calm);
        if halted {
          Release();
          stop := Returned(next);
        }
        return false, stop;
      }
      runner := Cleared;
      Record();
      Interfere(calm);
      return true, stop;
    }

    /** The group's execution and the checkpoint that records how it ended. */
    method Conclude(state: Checkpoint, calm: bool) returns (next: Checkpoint, stop: Option<RunResult>)
      requires Valid() && runner.Armed? && disk == Some(state) && state.phase.Running? && state.HasCommand()
      modifies this
      ensures Valid() && old(trace) <= trace
      ensures stop.None? ==> runner.Holding? && disk == Some(next)
                             && next == state.(phase := After, command := state.command + 1)
      ensures stop.Some? ==> runner.Idle? && disk.Some? && Matches(stop.value, disk.value)
      ensures calm ==> stop.None? && cancel == old(cancel)
    {
      next := state;
      var outcome := Execute(calm);
      if outcome.None? {
        return next, Some(StoppedEarly);
      }
      next := AfterCommand(state, outcome.value);
      var recorded := Store(next, Holding, calm);
      if !recorded {
        return next, Some(StoppedEarly);
      }
      if outcome.value.Success? {
        return next, None;
      }
      Release();
      var stage := state.plan.stages[state.stage].stage;
      if outcome.value.Error? {
        return next, Some(CommandFailed(stage, next.command));
      }
      return next, Some(if next.phase.Indeterminate? then IndeterminateResult else Returned(next));
    }

    /** One pass of the inner loop; `None` means the group succeeded and the loop goes on. */
    method RunGroup(state: Checkpoint, calm: bool) returns (next: Checkpoint, stop: Option<RunResult>)
      requires Valid() && runner.Holding? && disk == Some(state) && state.phase.Resumable() && state.HasCommand()
      modifies this
      ensures Valid() && old(trace) <= trace
      ensures stop.None? ==> runner.Holding? && disk == Some(next)
                             && next == state.(phase := After, command := state.command + 1)
      ensures stop.Some? ==> runner.Idle? && disk.Some? && Matches(stop.value, disk.value)
      ensures calm && !old(cancel) ==> stop.None? && !cancel
    {
      next := state;
      var clear, halted := MayStart(state, calm);
      if !clear {
        return next, Some(halted);
      }
      var armed := Store(state.(phase := Running), Armed, calm);
      if !armed {
        return next, Some(StoppedEarly);
      }
      next, stop := Conclude(state.(phase := Running), calm);
    }

    /** The inner loop: the remaining groups of the current stage. */
    method RunStage(start: Checkpoint, calm: bool) returns (state: Checkpoint, stop: Option<RunResult>)
      requires Valid() && runner.Holding? && disk == Some(start) && start.phase.Resumable()
      requires start.stage < |start.plan.stages|
      modifies this
      ensures Valid() && old(trace) <= trace
      ensures stop.None? ==>
                && runner.Holding? && disk == Some(state) && state.phase.Resumable()
                && state.plan == start.plan && state.stage == start.stage
                && state.command >= |start.plan.stages[start.stage].commands|
      ensures stop.Some? ==> runner.Idle? && disk.Some? && Matches(stop.value, disk.value)
      ensures calm && !old(cancel) ==> stop.None? && !cancel
    {
      state := start;
      while state.command < |start.plan.stages[start.stage].commands|
        invariant Valid() && runner.Holding? && old(trace) <= trace && (calm && !old(cancel) ==> !cancel)
        invariant disk == Some(state) && state.phase.Resumable()
        invariant state.plan == start.plan && state.stage == start.stage
      {
        state, stop := RunGroup(state, calm);
        if stop.Some? {
          return;
        }
      }
      stop := None;
    }

    /** The final checkpoint and the removal of a spent cancel file. */
    method Finish(start: Checkpoint, calm: bool) returns (r: RunResult)
      requires Valid() && runner.Holding? && disk == Some(start) && start.phase.Resumable()
      requires start.stage >= |start.plan.stages|
      modifies this
      ensures Valid() && runner.Idle? && old(trace) <= trace
      ensures disk.Some? && Matches(r, disk.value)
      ensures r.StoppedEarly? || (r.Returned? && r.state.phase.Complete?)
      ensures calm ==> r.Returned?
    {
      var state := start.(phase := Complete, pid := None, failure := None);
      var ok := Store(state, Holding, calm);
      if !ok {
        return StoppedEarly;
      }
      var removed: bool := *;
      if removed {
        cancel := false;
        Record();
      }
      Release();
      return Returned(state);
    }

    /** The body of `run_lifecycle` once a resumable checkpoint is in hand. */
    method RunStages(request: Request, start: Checkpoint, pid: nat, calm: bool) returns (r: RunResult)
      requires Valid() && runner.Holding? && disk == Some(start) && start.plan == request && start.phase.Resumable()
      modifies this
      ensures Valid() && runner.Idle? && old(trace) <= trace
      ensures r.Returned? || r.IndeterminateResult? || r.CommandFailed? || r.StoppedEarly?
      ensures disk.Some? && Matches(r, disk.value)
      ensures calm && !old(cancel) ==> r.Returned? && r.state.phase.Complete?
    {
      var state := start.(pid := Some(pid));
      var ok := Store(state, Holding, calm);
      if !ok {
        return StoppedEarly;
      }
      var environmentLoaded: bool := *;
      if !environmentLoaded && !calm {
        Release();
        return StoppedEarly;
      }
      while state.stage < |request.stages|
        invariant Valid() && runner.Holding? && old(trace) <= trace && (calm && !old(cancel) ==> !cancel)
        invariant disk == Some(state) && state.plan == request && state.phase.Resumable()
        decreases |request.stages| - state.stage
      {
        var stop;
        state, stop := RunStage(state, calm);
        if stop.Some? {
          return stop.value;
        }
        state := state.(stage := state.stage + 1, command := 0, phase := Before);
        ok := Store(state, Holding, calm);
        if !ok {
          return StoppedEarly;
        }
      }
      r := Finish(state, calm);
    }

    /**
     `run_lifecycle`. `lockFree` is the answer of the non-blocking lock. Whatever happens, the
     behaviour extends a run of the protocol; the result tells the truth about the disk, and a
     generation that inspection already calls finished only ever gets that verdict written down.
     When all is `calm` (writes succeed, nothing dies, commands succeed, nobody cancels) a resumable
     generation is completed.
     */
    method Run(request: Request, lockFree: bool, pid: nat, calm: bool) returns (r: RunResult)
      requires Valid() && runner.Idle?
      modifies this
      ensures Valid() && runner.Idle? && old(trace) <= trace
      ensures r.InvalidStages? || r.AlreadyRunning? || r.MismatchedPlan? ==> disk == old(disk) && log == old(log)
      ensures r.InvalidStages? <==> !InStageOrder(request.stages)
      ensures r.AlreadyRunning? <==> InStageOrder(request.stages) && !lockFree
      ensures r.MismatchedPlan? <==>
                InStageOrder(request.stages) && lockFree && old(disk).Some? && old(disk).value.plan != request
      ensures r.Returned? || r.IndeterminateResult? || r.CommandFailed? ==> disk.Some? && Matches(r, disk.value)
      ensures var seen := Inspect(old(disk), request, false);
              lockFree && InStageOrder(request.stages) && seen.Ok? && seen.value.phase.Terminal() ==>
                && log == old(log)
                && (r.StoppedEarly? || (disk.Some? && disk.value.phase == seen.value.phase))
      ensures lockFree && InStageOrder(request.stages) && old(disk).Some? && old(disk).value.plan == request
              && old(disk).value.phase.Running? && !r.StoppedEarly? ==>
                if OnceOnly(old(disk).value) then r.IndeterminateResult? else r.Returned? && r.state.phase.Failed?
      ensures calm && !old(cancel) && lockFree && InStageOrder(request.stages)
              && (old(disk).None? || (old(disk).value.plan == request && old(disk).value.phase.Resumable())) ==>
                r.Returned? && r.state.phase.Complete? && disk == Some(r.state)
    {
      var valid := ValidateStages(request.stages);
      if !valid {
        return InvalidStages;
      }
      if !lockFree {
        return AlreadyRunning;
      }
      runner := Holding;
      Record();
      var loaded := Open(request, calm);
      if loaded.Err? {
        return loaded.error;
      }
      var state := loaded.value;
      if state.phase.Indeterminate? {
        Release();
        return IndeterminateResult;
      }
      if state.phase.Terminal() {
        Release();
        return Returned(state);
      }
      r := RunStages(request, state, pid, calm);
    }
  }
}
