/**
 The durable lifecycle protocol of one generation: what is on disk, what the lock holder is
 doing, and which command groups were really started.

 A run of the system is any sequence of worlds linked by `Step`. Every durable write is one
 step, cancellation may be requested at any moment, and `Released` covers every way a runner
 can stop: an ordinary return, an I/O error after or instead of a write, or a crash.
 */
module Lifecycle {
  import opened Wrappers

  // ----- Plans and checkpoints -----

  datatype Stage = OnCreate | UpdateContent | PostCreate | PostStart | PostAttach {
    predicate IsOneTime() {
      !PostStart? && !PostAttach?
    }

    function Rank(): nat {
      match this
      case OnCreate => 0
      case UpdateContent => 1
      case PostCreate => 2
      case PostStart => 3
      case PostAttach => 4
    }
  }

  /** The order of the stages of a container's life. */
  const STAGE_ORDER: seq<Stage> := [OnCreate, UpdateContent, PostCreate, PostStart, PostAttach]

  /** The stages of a plan stand in that order, each at most once: entry `i` is entry `at[i]` of it. */
  ghost predicate PlacedAt(stages: seq<StagePlan>, at: seq<nat>) {
    && |at| == |stages| && (forall i :: 0 <= i < |at| ==> at[i] < 5 && stages[i].stage == STAGE_ORDER[at[i]])
    && forall i, j :: 0 <= i < j < |at| ==> at[i] < at[j]
  }

  ghost predicate InStageOrder(stages: seq<StagePlan>) {
    exists at :: PlacedAt(stages, at)
  }

  datatype StagePlan = StagePlan(stage: Stage, commands: seq<string>)

  datatype Request = Request(generation: string, stages: seq<StagePlan>)

  datatype Phase = Before | Running | After | Failed | Indeterminate | Cancelled | Complete {
    predicate Resumable() {
      Before? || After?
    }

    predicate Terminal() {
      Failed? || Indeterminate? || Cancelled? || Complete?
    }
  }

  datatype Checkpoint = Checkpoint(
    plan: Request, stage: nat, command: nat, phase: Phase, pid: Option<nat>, failure: Option<string>)
  {
    /** The checkpoint points at a command group of its plan. */
    predicate HasCommand() {
      stage < |plan.stages| && command < |plan.stages[stage].commands|
    }

    /** The phase a `Running` checkpoint left by a dead runner stands for. */
    function Interrupted(): Phase {
      if stage < |plan.stages| && plan.stages[stage].stage.IsOneTime() then Indeterminate else Failed
    }
  }

  function FreshCheckpoint(request: Request): Checkpoint {
    Checkpoint(request, 0, 0, Before, None, None)
  }

  // ----- What really happened -----

  datatype Group = Group(stage: nat, command: nat)

  datatype Outcome = Success | Stopped | Error(message: string)

  datatype Event = Started(group: Group) | Ended(group: Group, outcome: Outcome)

  /** Plan order of command groups: by stage, then by offset inside the stage. */
  predicate Earlier(g: Group, h: Group) {
    g.stage < h.stage || (g.stage == h.stage && g.command < h.command)
  }

  predicate IsGroup(stages: seq<StagePlan>, g: Group) {
    g.stage < |stages| && g.command < |stages[g.stage].commands|
  }

  // ----- The transition system -----

  /** What the holder of the generation lock is doing. */
  datatype Runner = Idle | Holding | Cleared | Armed | Waiting | Finished(outcome: Outcome)

  datatype World = World(disk: Option<Checkpoint>, cancel: bool, runner: Runner, log: seq<Event>)

  const INITIAL := World(None, false, Idle, [])

  ghost predicate CancelRequested(w: World, w': World) {
    w' == w.(cancel := true)
  }

  ghost predicate Released(w: World, w': World) {
    w' == w.(runner := Idle)
  }

  ghost predicate Acquired(w: World, w': World) {
    w.runner.Idle? && w' == w.(runner := Holding)
  }

  ghost predicate Created(w: World, w': World) {
    w.runner.Holding? && w.disk.None? && w'.disk.Some?
    && w' == w.(disk := Some(FreshCheckpoint(w'.disk.value.plan)))
  }

  /** A checkpoint left `Running` by a dead runner is settled before anything else. */
  ghost predicate Settled(w: World, w': World) {
    w.runner.Holding? && w.disk.Some? && w.disk.value.phase.Running?
    && w' == w.(disk := Some(w.disk.value.(
                  phase := w.disk.value.Interrupted(), pid := None, failure := Some("interrupted"))))
  }

  ghost predicate Claimed(w: World, w': World) {
    w.runner.Holding? && w.disk.Some? && w.disk.value.phase.Resumable() && w'.disk.Some?
    && w' == w.(disk := Some(w.disk.value.(pid := w'.disk.value.pid)))
  }

  ghost predicate Halted(w: World, w': World) {
    w.runner.Holding? && w.cancel && w.disk.Some? && w.disk.value.phase.Resumable() && w.disk.value.HasCommand()
    && w' == w.(disk := Some(w.disk.value.(phase := Cancelled, pid := None)))
  }

  /** The cancel file was looked for and not found; it may still appear before the group starts. */
  ghost predicate Checked(w: World, w': World) {
    w.runner.Holding? && !w.cancel && w.disk.Some? && w.disk.value.phase.Resumable() && w.disk.value.HasCommand()
    && w' == w.(runner := Cleared)
  }

  ghost predicate StoredRunning(w: World, w': World) {
    w.runner.Cleared? && w.disk.Some? && w.disk.value.phase.Resumable() && w.disk.value.HasCommand()
    && w' == w.(disk := Some(w.disk.value.(phase := Running)), runner := Armed)
  }

  ghost predicate Launched(w: World, w': World) {
    w.runner.Armed? && w.disk.Some?
    && w' == w.(runner := Waiting, log := w.log + [Started(Group(w.disk.value.stage, w.disk.value.command))])
  }

  ghost predicate Reaped(w: World, w': World) {
    w.runner.Waiting? && w.disk.Some? && w'.runner.Finished?
    && (w'.runner.outcome.Stopped? ==> w.cancel)
    && w' == w.(runner := w'.runner,
                log := w.log + [Ended(Group(w.disk.value.stage, w.disk.value.command), w'.runner.outcome)])
  }

  /** The checkpoint that records how the current command group ended. */
  function AfterCommand(c: Checkpoint, outcome: Outcome): Checkpoint {
    match outcome
    case Success => c.(phase := After, command := c.command + 1)
    case Stopped => c.(phase := if c.Interrupted().Indeterminate? then Indeterminate else Cancelled,
                       pid := None, failure := Some("cancelled"))
    case Error(message) => c.(phase := Failed, pid := None, failure := Some(message))
  }

  ghost predicate Recorded(w: World, w': World) {
    w.runner.Finished? && w.disk.Some?
    && w' == w.(disk := Some(AfterCommand(w.disk.value, w.runner.outcome)), runner := Holding)
  }

  ghost predicate Advanced(w: World, w': World) {
    w.runner.Holding? && w.disk.Some? && w.disk.value.phase.Resumable()
    && w.disk.value.stage < |w.disk.value.plan.stages|
    && w.disk.value.command >= |w.disk.value.plan.stages[w.disk.value.stage].commands|
    && w' == w.(disk := Some(w.disk.value.(stage := w.disk.value.stage + 1, command := 0, phase := Before)))
  }

  ghost predicate Completed(w: World, w': World) {
    w.runner.Holding? && w.disk.Some? && w.disk.value.phase.Resumable()
    && w.disk.value.stage >= |w.disk.value.plan.stages|
    && w' == w.(disk := Some(w.disk.value.(phase := Complete, pid := None, failure := None)))
  }

  ghost predicate CancelCleared(w: World, w': World) {
    w.runner.Holding? && w.disk.Some? && w.disk.value.phase.Complete? && w' == w.(cancel := false)
  }

  ghost predicate Step(w: World, w': World) {
    || CancelRequested(w, w') || Released(w, w') || Acquired(w, w') || Created(w, w')
    || Settled(w, w') || Claimed(w, w') || Halted(w, w') || Checked(w, w') || StoredRunning(w, w')
    || Launched(w, w') || Reaped(w, w') || Recorded(w, w')
    || Advanced(w, w') || Completed(w, w') || CancelCleared(w, w')
  }

  ghost predicate StepAt(t: seq<World>, i: nat) {
    0 < i < |t| && Step(t[i - 1], t[i])
  }

  /** Every finite behaviour: any interleaving of runs, crashes and cancel requests. */
  ghost predicate IsRun(t: seq<World>) {
    |t| > 0 && t[0] == INITIAL && forall i :: 0 < i < |t| ==> StepAt(t, i)
  }

  lemma RunGrows(t: seq<World>, w: World)
    requires IsRun(t) && Step(t[|t| - 1], w)
    ensures IsRun(t + [w])
  {
    forall i | 0 < i < |t + [w]|
      ensures StepAt(t + [w], i)
    {
      assert i < |t| ==> StepAt(t, i);
    }
  }

  lemma RunSteps(t: seq<World>, i: nat)
    requires IsRun(t) && 0 < i < |t|
    ensures Step(t[i - 1], t[i])
  {
    assert StepAt(t, i);
  }

  // ----- The expected log -----

  function StageGroups(s: nat, count: nat): seq<Group> {
    seq(count, i requires 0 <= i => Group(s, i))
  }

  /** The groups of every stage before `s`. */
  function StagesBefore(stages: seq<StagePlan>, s: nat): seq<Group>
    requires s <= |stages|
  {
    if s == 0 then [] else StagesBefore(stages, s - 1) + StageGroups(s - 1, |stages[s - 1].commands|)
  }

  function GroupsBefore(stages: seq<StagePlan>, s: nat, c: nat): seq<Group>
    requires s <= |stages|
  {
    StagesBefore(stages, s) + StageGroups(s, c)
  }

  function SuccessLog(groups: seq<Group>): seq<Event> {
    if groups == [] then []
    else
      var last := |groups| - 1;
      SuccessLog(groups[..last]) + [Started(groups[last]), Ended(groups[last], Success)]
  }

  lemma {:induction false} SuccessLogAt(groups: seq<Group>)
    ensures |SuccessLog(groups)| == 2 * |groups|
    ensures forall k :: 0 <= k < |groups| ==>
              SuccessLog(groups)[2 * k] == Started(groups[k]) && SuccessLog(groups)[2 * k + 1] == Ended(groups[k], Success)
  {
    if groups != [] {
      SuccessLogAt(groups[..|groups| - 1]);
    }
  }

  /** The groups before a position are exactly the plan's earlier groups, in strict plan order. */
  lemma {:induction false} GroupsBeforeIsPlanOrder(stages: seq<StagePlan>, s: nat, c: nat)
    requires s <= |stages|
    requires s < |stages| ==> c <= |stages[s].commands|
    requires s == |stages| ==> c == 0
    ensures forall g :: g in GroupsBefore(stages, s, c) <==> IsGroup(stages, g) && Earlier(g, Group(s, c))
    ensures forall i, j :: 0 <= i < j < |GroupsBefore(stages, s, c)| ==>
              Earlier(GroupsBefore(stages, s, c)[i], GroupsBefore(stages, s, c)[j])
    decreases s
  {
    var here := StageGroups(s, c);
    assert forall g :: g in here <==> g.stage == s && g.command < c by {
      forall g: Group | g.stage == s && g.command < c ensures g in here {
        assert here[g.command] == g;
      }
    }
    if s > 0 {
      GroupsBeforeIsPlanOrder(stages, s - 1, |stages[s - 1].commands|);
      assert StagesBefore(stages, s) == GroupsBefore(stages, s - 1, |stages[s - 1].commands|);
    }
    assert forall g :: g in StagesBefore(stages, s) <==> IsGroup(stages, g) && g.stage < s;
  }

  lemma GroupsBeforeNext(stages: seq<StagePlan>, s: nat, c: nat)
    requires s < |stages| && c < |stages[s].commands|
    ensures GroupsBefore(stages, s, c + 1) == GroupsBefore(stages, s, c) + [Group(s, c)]
  {
    assert StageGroups(s, c + 1) == StageGroups(s, c) + [Group(s, c)];
  }

  lemma SuccessLogExtends(groups: seq<Group>, g: Group)
    ensures SuccessLog(groups + [g]) == SuccessLog(groups) + [Started(g), Ended(g, Success)]
  {
    assert (groups + [g])[..|groups|] == groups;
  }

  // ----- The inductive invariant -----

  /** The log is `done` and then at most one group, which may have ended. */
  ghost predicate Follows(stages: seq<StagePlan>, done: seq<Event>, g: Group, log: seq<Event>) {
    && done <= log && |log| <= |done| + 2
    && (|log| > |done| ==> IsGroup(stages, g) && log[|done|] == Started(g))
    && (|log| > |done| + 1 ==> log[|done| + 1].Ended? && log[|done| + 1].group == g)
  }

  /** Everything before the position succeeded; the group at the position may have begun. */
  ghost predicate HistoryAt(stages: seq<StagePlan>, s: nat, c: nat, log: seq<Event>)
    requires s <= |stages|
  {
    Follows(stages, SuccessLog(GroupsBefore(stages, s, c)), Group(s, c), log)
  }

  ghost predicate PositionOk(c: Checkpoint) {
    && c.stage <= |c.plan.stages|
    && (c.stage < |c.plan.stages| ==> c.command <= |c.plan.stages[c.stage].commands|)
    && (c.stage == |c.plan.stages| ==> c.command == 0)
  }

  /** What phase, runner and log say about each other once `done` is behind the position. */
  ghost predicate Agrees(c: Checkpoint, done: seq<Event>, runner: Runner, log: seq<Event>) {
    && PositionOk(c)
    && Follows(c.plan.stages, done, Group(c.stage, c.command), log)
    && (c.phase.Resumable() || c.phase.Complete? ==> log == done)
    && (c.phase.Complete? ==> c.stage == |c.plan.stages|)
    && (!c.phase.Resumable() && !c.phase.Complete? ==> c.HasCommand())
    && (runner.Cleared? ==> c.phase.Resumable() && c.HasCommand())
    && (runner.Armed? || runner.Waiting? || runner.Finished? ==> c.phase.Running?)
    && (runner.Armed? ==> log == done)
    && (runner.Waiting? ==> |log| == |done| + 1)
    && (runner.Finished? ==> |log| == |done| + 2 && log[|done| + 1].outcome == runner.outcome)
  }

  ghost predicate Inv(w: World) {
    match w.disk
    case None => w.log == [] && (w.runner.Idle? || w.runner.Holding?)
    case Some(c) =>
      && PositionOk(c)
      && Agrees(c, SuccessLog(GroupsBefore(c.plan.stages, c.stage, c.command)), w.runner, w.log)
  }

  /** A group that ended well becomes part of what is done. */
  lemma DoneGrows(c: Checkpoint, log: seq<Event>)
    requires PositionOk(c) && c.HasCommand()
    requires log == SuccessLog(GroupsBefore(c.plan.stages, c.stage, c.command))
                    + [Started(Group(c.stage, c.command)), Ended(Group(c.stage, c.command), Success)]
    ensures log == SuccessLog(GroupsBefore(c.plan.stages, c.stage, c.command + 1))
  {
    GroupsBeforeNext(c.plan.stages, c.stage, c.command);
    SuccessLogExtends(GroupsBefore(c.plan.stages, c.stage, c.command), Group(c.stage, c.command));
  }

  lemma RecordedSuccessKeepsInv(w: World, w': World)
    requires Inv(w) && Recorded(w, w') && w.runner.outcome.Success?
    ensures Inv(w')
  {
    var c := w.disk.value;
    var done := SuccessLog(GroupsBefore(c.plan.stages, c.stage, c.command));
    assert w.log == done + [Started(Group(c.stage, c.command)), Ended(Group(c.stage, c.command), Success)];
    DoneGrows(c, w.log);
  }

  lemma RecordedKeepsInv(w: World, w': World)
    requires Inv(w) && Recorded(w, w')
    ensures Inv(w')
  {
    if w.runner.outcome.Success? {
      RecordedSuccessKeepsInv(w, w');
    }
  }

  lemma AdvancedKeepsInv(w: World, w': World)
    requires Inv(w) && Advanced(w, w')
    ensures Inv(w')
  {
    var c := w.disk.value;
    assert GroupsBefore(c.plan.stages, c.stage + 1, 0) == GroupsBefore(c.plan.stages, c.stage, c.command);
  }

  lemma CreatedKeepsInv(w: World, w': World)
    requires Inv(w) && Created(w, w')
    ensures Inv(w')
  {
    assert GroupsBefore(w'.disk.value.plan.stages, 0, 0) == [];
  }

  lemma GroupStepsAgree(done: seq<Event>, w: World, w': World)
    requires w.disk.Some? && Agrees(w.disk.value, done, w.runner, w.log)
    requires Launched(w, w') || Reaped(w, w')
    ensures w'.disk == w.disk && Agrees(w.disk.value, done, w'.runner, w'.log)
  {
  }

  /** Every other step leaves the position, and so what is done, as it was. */
  lemma OtherStepsAgree(done: seq<Event>, w: World, w': World)
    requires w.disk.Some? && Agrees(w.disk.value, done, w.runner, w.log)
    requires Step(w, w') && !Recorded(w, w') && !Advanced(w, w')
    ensures w'.disk.Some? && Agrees(w'.disk.value, done, w'.runner, w'.log)
    ensures w'.disk.value.plan == w.disk.value.plan
    ensures w'.disk.value.stage == w.disk.value.stage && w'.disk.value.command == w.disk.value.command
  {
    if Launched(w, w') || Reaped(w, w') {
      GroupStepsAgree(done, w, w');
    }
  }

  lemma {:induction false} RunKeepsInv(t: seq<World>, i: nat)
    requires IsRun(t) && i < |t|
    ensures Inv(t[i])
  {
    if i > 0 {
      RunKeepsInv(t, i - 1);
      RunSteps(t, i);
      if Recorded(t[i - 1], t[i]) {
        RecordedKeepsInv(t[i - 1], t[i]);
      } else if Advanced(t[i - 1], t[i]) {
        AdvancedKeepsInv(t[i - 1], t[i]);
      } else if Created(t[i - 1], t[i]) {
        CreatedKeepsInv(t[i - 1], t[i]);
      } else if t[i - 1].disk.Some? {
        var c := t[i - 1].disk.value;
        OtherStepsAgree(SuccessLog(GroupsBefore(c.plan.stages, c.stage, c.command)), t[i - 1], t[i]);
      }
    }
  }

  // ----- Safety over whole runs -----

  ghost predicate Succeeded(log: seq<Event>, g: Group, before: nat)
    requires before <= |log|
  {
    Ended(g, Success) in log[..before]
  }

  /** At most one start per group, in plan order, each only after every earlier group succeeded. */
  ghost predicate OrderedOnce(stages: seq<StagePlan>, log: seq<Event>) {
    && (forall k :: 0 <= k < |log| ==> IsGroup(stages, log[k].group))
    && (forall j, k :: 0 <= j < k < |log| && log[j].Started? && log[k].Started? ==>
          Earlier(log[j].group, log[k].group))
    && (forall k, g :: 0 <= k < |log| && log[k].Started? && IsGroup(stages, g) && Earlier(g, log[k].group) ==>
          Succeeded(log, g, k))
  }

  /** Event `k` of such a history belongs to group `k / 2` of the plan. */
  lemma HistoryEvents(stages: seq<StagePlan>, s: nat, c: nat, log: seq<Event>)
    requires s <= |stages| && HistoryAt(stages, s, c, log)
    ensures |log| <= 2 * |GroupsBefore(stages, s, c)| + 2
    ensures forall k :: 0 <= k < |log| ==> log[k].group == (GroupsBefore(stages, s, c) + [Group(s, c)])[k / 2]
    ensures forall k :: 0 <= k < |log| ==> (log[k].Started? <==> k % 2 == 0)
    ensures forall k :: 0 <= k < |log| && k / 2 < |GroupsBefore(stages, s, c)| && k % 2 == 1 ==> log[k].outcome.Success?
  {
    var groups := GroupsBefore(stages, s, c);
    var done := SuccessLog(groups);
    SuccessLogAt(groups);
    forall k | 0 <= k < |log|
      ensures log[k].group == (groups + [Group(s, c)])[k / 2] && (log[k].Started? <==> k % 2 == 0)
      ensures k / 2 < |groups| && k % 2 == 1 ==> log[k].outcome.Success?
    {
      assert k < |done| ==> log[k] == done[k];
      assert k % 2 == 0 ==> k == 2 * (k / 2);
      assert k % 2 == 1 ==> k == 2 * (k / 2) + 1;
    }
  }

  lemma HistoryIsOrderedOnce(stages: seq<StagePlan>, s: nat, c: nat, log: seq<Event>)
    requires s <= |stages|
    requires s < |stages| ==> c <= |stages[s].commands|
    requires s == |stages| ==> c == 0
    requires HistoryAt(stages, s, c, log)
    ensures OrderedOnce(stages, log)
  {
    HistoryEvents(stages, s, c, log);
    SuccessLogAt(GroupsBefore(stages, s, c));
    GroupsBeforeIsPlanOrder(stages, s, c);
    OrderedFromEvents(stages, GroupsBefore(stages, s, c), Group(s, c), log);
  }

  lemma OrderedFromEvents(stages: seq<StagePlan>, groups: seq<Group>, here: Group, log: seq<Event>)
    requires |log| <= 2 * |groups| + 2
    requires forall k :: 0 <= k < |log| ==> log[k].group == (groups + [here])[k / 2]
    requires forall k :: 0 <= k < |log| ==> (log[k].Started? <==> k % 2 == 0)
    requires forall k :: 0 <= k < |log| && k / 2 < |groups| && k % 2 == 1 ==> log[k].outcome.Success?
    requires forall g :: g in groups <==> IsGroup(stages, g) && Earlier(g, here)
    requires forall i, j :: 0 <= i < j < |groups| ==> Earlier(groups[i], groups[j])
    requires |log| > 2 * |groups| ==> IsGroup(stages, here)
    ensures OrderedOnce(stages, log)
  {
    var all := groups + [here];
    assert forall i, j :: 0 <= i < j < |all| ==> Earlier(all[i], all[j]);
    assert forall k :: 0 <= k < |log| ==> log[k].group == all[k / 2];
    forall k | 0 <= k < |log|
      ensures IsGroup(stages, log[k].group)
    {
      assert k / 2 < |groups| ==> all[k / 2] in groups;
    }
    forall j, k | 0 <= j < k < |log| && log[j].Started? && log[k].Started?
      ensures Earlier(log[j].group, log[k].group)
    {
      assert j / 2 < k / 2;
    }
    forall k, g | 0 <= k < |log| && log[k].Started? && IsGroup(stages, g) && Earlier(g, log[k].group)
      ensures Succeeded(log, g, k)
    {
      assert Earlier(g, here);
      var m :| 0 <= m < |groups| && groups[m] == g;
      assert all[m] == g && !Earlier(all[k / 2], all[m]);
      assert m < k / 2;
      assert (2 * m + 1) / 2 == m && (2 * m + 1) % 2 == 1;
      assert log[2 * m + 1] == Ended(g, Success);
      assert log[..k][2 * m + 1] == Ended(g, Success);
    }
  }

  /** In every state of every run the real history obeys the plan. */
  lemma RunsAreOrderedOnce(t: seq<World>, i: nat)
    requires IsRun(t) && i < |t|
    ensures match t[i].disk
            case None => t[i].log == []
            case Some(c) => OrderedOnce(c.plan.stages, t[i].log)
  {
    RunKeepsInv(t, i);
    if t[i].disk.Some? {
      var c := t[i].disk.value;
      HistoryIsOrderedOnce(c.plan.stages, c.stage, c.command, t[i].log);
    }
  }

  /** A log of successes starts and ends each of its groups, and nothing in it failed. */
  lemma SuccessLogCovers(groups: seq<Group>)
    ensures forall g :: g in groups ==> Started(g) in SuccessLog(groups) && Ended(g, Success) in SuccessLog(groups)
    ensures forall k :: 0 <= k < |SuccessLog(groups)| && SuccessLog(groups)[k].Ended? ==>
              SuccessLog(groups)[k].outcome.Success?
  {
    var log := SuccessLog(groups);
    SuccessLogAt(groups);
    forall g | g in groups
      ensures Started(g) in log && Ended(g, Success) in log
    {
      var m :| 0 <= m < |groups| && groups[m] == g;
      assert log[2 * m] == Started(g) && log[2 * m + 1] == Ended(g, Success);
    }
    forall k | 0 <= k < |log| && log[k].Ended?
      ensures log[k].outcome.Success?
    {
      assert k == 2 * (k / 2) + k % 2;
      assert log[2 * (k / 2)] == Started(groups[k / 2]);
    }
  }

  /** A `Complete` checkpoint means every group of the plan started exactly once and succeeded. */
  lemma CompleteMeansEverythingRan(t: seq<World>, i: nat)
    requires IsRun(t) && i < |t| && t[i].disk.Some? && t[i].disk.value.phase.Complete?
    ensures OrderedOnce(t[i].disk.value.plan.stages, t[i].log)
    ensures forall g :: IsGroup(t[i].disk.value.plan.stages, g) ==>
              Started(g) in t[i].log && Ended(g, Success) in t[i].log
    ensures forall k :: 0 <= k < |t[i].log| && t[i].log[k].Ended? ==> t[i].log[k].outcome.Success?
  {
    RunsAreOrderedOnce(t, i);
    RunKeepsInv(t, i);
    var c := t[i].disk.value;
    SuccessLogCovers(GroupsBefore(c.plan.stages, c.stage, c.command));
    GroupsBeforeIsPlanOrder(c.plan.stages, c.stage, c.command);
  }

  /** What one step never undoes. */
  ghost predicate Monotone(w: World, w': World) {
    && w.log <= w'.log
    && (w.disk.Some? ==> w'.disk.Some? && w'.disk.value.plan == w.disk.value.plan)
    && (w.disk.Some? && w.disk.value.phase.Terminal() ==> w'.disk == w.disk && w'.log == w.log)
  }

  /** The lock holder is inside a command group only while the disk says `Running`, about to be only before that. */
  ghost predicate BusyMeansRunning(w: World) {
    && (w.runner.Armed? || w.runner.Waiting? || w.runner.Finished? ==> w.disk.Some? && w.disk.value.phase.Running?)
    && (w.runner.Cleared? ==> w.disk.Some? && w.disk.value.phase.Resumable())
  }

  lemma RunIsBusyOnlyWhenRunning(t: seq<World>, i: nat)
    requires IsRun(t) && i < |t|
    ensures BusyMeansRunning(t[i])
  {
    RunKeepsInv(t, i);
  }

  lemma MonotoneChains(w: World, v: World, u: World)
    requires Monotone(w, v) && Monotone(v, u)
    ensures Monotone(w, u)
  {
  }

  lemma StepIsMonotone(w: World, w': World)
    requires BusyMeansRunning(w) && Step(w, w')
    ensures Monotone(w, w')
  {
  }

  /**
   History only grows, the first plan stays the plan of the generation, and once a terminal
   checkpoint is on disk neither it nor the history ever changes again.
   */
  lemma {:induction false} RunsAreMonotone(t: seq<World>, i: nat, j: nat)
    requires IsRun(t) && i <= j < |t|
    ensures Monotone(t[i], t[j])
    decreases j
  {
    if i < j {
      RunsAreMonotone(t, i, j - 1);
      RunIsBusyOnlyWhenRunning(t, j - 1);
      RunSteps(t, j);
      StepIsMonotone(t[j - 1], t[j]);
      MonotoneChains(t[i], t[j - 1], t[j]);
    }
  }

  /** In every run of a plan in stage order, groups start in the order of the stages of a container's life. */
  lemma StagesStartInOrder(t: seq<World>, i: nat, j: nat, k: nat) returns (p: nat, q: nat)
    requires IsRun(t) && i < |t| && t[i].disk.Some? && InStageOrder(t[i].disk.value.plan.stages)
    requires j < k < |t[i].log| && t[i].log[j].Started? && t[i].log[k].Started?
    ensures var stages, g, h := t[i].disk.value.plan.stages, t[i].log[j].group, t[i].log[k].group;
            && g.stage < |stages| && h.stage < |stages| && p <= q < 5
            && stages[g.stage].stage == STAGE_ORDER[p] && stages[h.stage].stage == STAGE_ORDER[q]
            && (p == q ==> g.stage == h.stage && g.command < h.command)
  {
    RunsAreOrderedOnce(t, i);
    var stages, g, h := t[i].disk.value.plan.stages, t[i].log[j].group, t[i].log[k].group;
    assert IsGroup(stages, g) && IsGroup(stages, h) && Earlier(g, h);
    var at :| PlacedAt(stages, at);
    p, q := at[g.stage], at[h.stage];
  }

  // ----- How an interrupted or cancelled group is recorded -----

  /** A stage that runs once in a container's life. */
  ghost predicate OnceOnly(c: Checkpoint) {
    c.stage < |c.plan.stages|
    && (c.plan.stages[c.stage].stage == OnCreate || c.plan.stages[c.stage].stage == UpdateContent
        || c.plan.stages[c.stage].stage == PostCreate)
  }

  /** A dead runner's group, or a stopped one, leaves a once-only stage indeterminate and any other failed or cancelled. */
  lemma RecordedByStage(c: Checkpoint, message: string)
    ensures c.Interrupted() == if OnceOnly(c) then Indeterminate else Failed
    ensures AfterCommand(c, Stopped).phase == if OnceOnly(c) then Indeterminate else Cancelled
    ensures AfterCommand(c, Error(message)).phase == Failed && AfterCommand(c, Error(message)).failure == Some(message)
    ensures var after := AfterCommand(c, Success);
            after.phase == After && after.stage == c.stage && after.command == c.command + 1 && after.plan == c.plan
  {
  }

  /** The last thing that happened. */
  ghost predicate EndsWith(log: seq<Event>, e: Event) {
    log != [] && log[|log| - 1] == e
  }

  ghost predicate EndsWell(log: seq<Event>) {
    log == [] || (log[|log| - 1].Ended? && log[|log| - 1].outcome.Success?)
  }

  /** What the phase on disk says about the stage it stands at. */
  ghost predicate PhaseFitsStage(c: Checkpoint, log: seq<Event>) {
    var here := Group(c.stage, c.command);
    && (c.phase.Indeterminate? ==> OnceOnly(c))
    && (c.phase.Cancelled? && EndsWith(log, Ended(here, Stopped)) ==> !OnceOnly(c))
    && (c.phase.Failed? && c.failure == Some("interrupted") && EndsWith(log, Started(here)) ==> !OnceOnly(c))
  }

  /** And what the runner and the log say about each other. */
  ghost predicate FitsStage(w: World) {
    match w.disk
    case None => w.runner.Idle? || w.runner.Holding?
    case Some(c) =>
      && PhaseFitsStage(c, w.log)
      && (w.runner.Armed? || w.runner.Waiting? || w.runner.Finished? ==> c.phase.Running?)
      && (w.runner.Cleared? ==> c.phase.Resumable())
      && (c.phase.Resumable() ==> EndsWell(w.log))
      && (w.runner.Finished? ==> EndsWith(w.log, Ended(Group(c.stage, c.command), w.runner.outcome)))
  }

  lemma ExecutionFitsStage(w: World, w': World)
    requires FitsStage(w) && (Launched(w, w') || Reaped(w, w'))
    ensures FitsStage(w')
  {
  }

  lemma RecordFitsStage(w: World, w': World)
    requires FitsStage(w) && (Recorded(w, w') || Settled(w, w'))
    ensures FitsStage(w')
  {
  }

  lemma StepFitsStage(w: World, w': World)
    requires FitsStage(w) && Step(w, w') && (w.disk.None? ==> w.log == [])
    ensures FitsStage(w')
  {
    if Launched(w, w') || Reaped(w, w') {
      ExecutionFitsStage(w, w');
    } else if Recorded(w, w') || Settled(w, w') {
      RecordFitsStage(w, w');
    }
  }

  lemma {:induction false} RunFitsStage(t: seq<World>, i: nat)
    requires IsRun(t) && i < |t|
    ensures FitsStage(t[i])
  {
    if i > 0 {
      RunFitsStage(t, i - 1);
      RunKeepsInv(t, i - 1);
      RunSteps(t, i);
      StepFitsStage(t[i - 1], t[i]);
    }
  }

  /**
   In every run an indeterminate checkpoint stands at a once-only stage, and a group that was stopped
   or abandoned at a once-only stage is never recorded as merely cancelled or failed.
   */
  lemma OnceOnlyStagesAreNeverAssumed(t: seq<World>, i: nat)
    requires IsRun(t) && i < |t|
    ensures t[i].disk.Some? ==> PhaseFitsStage(t[i].disk.value, t[i].log)
  {
    RunFitsStage(t, i);
  }

  // ----- Cancellation -----

  function Starts(log: seq<Event>): nat {
    if log == [] then 0 else Starts(log[..|log| - 1]) + (if log[|log| - 1].Started? then 1 else 0)
  }

  lemma {:induction false} StartsGrow(log: seq<Event>, n: nat, m: nat)
    requires n <= m <= |log|
    ensures Starts(log[..n]) <= Starts(log[..m])
    decreases m
  {
    if n < m {
      StartsGrow(log, n, m - 1);
      assert log[..m][..m - 1] == log[..m - 1];
    }
  }

  lemma StartsAt(log: seq<Event>, p: nat)
    requires p < |log| && log[p].Started?
    ensures Starts(log[..p + 1]) == Starts(log[..p]) + 1
  {
    assert log[..p + 1][..p] == log[..p];
  }

  lemma StartsAmong(log: seq<Event>, n: nat, p: nat, q: nat)
    requires n <= p <= q < |log| && log[p].Started? && log[q].Started?
    ensures Starts(log) >= Starts(log[..n]) + (if p < q then 2 else 1)
  {
    StartsGrow(log, n, p);
    StartsAt(log, p);
    StartsAt(log, q);
    StartsGrow(log, q + 1, |log|);
    assert log[..|log|] == log;
    if p < q {
      StartsGrow(log, p + 1, q);
    }
  }

  /** The runner is past its look for the cancel file and has not started the group yet. */
  function PastTheCheck(w: World): nat {
    if w.runner.Cleared? || w.runner.Armed? then 1 else 0
  }

  /** Groups started, and one more if the runner is past its check. */
  function Committed(w: World): nat {
    Starts(w.log) + PastTheCheck(w)
  }

  lemma StepUnderCancel(w: World, w': World)
    requires Step(w, w') && w.cancel
    ensures Committed(w') <= Committed(w)
  {
    if w'.log != w.log {
      assert w'.log[..|w.log|] == w.log;
    }
  }

  lemma {:induction false} NothingNewUnderCancel(t: seq<World>, i: nat, j: nat)
    requires IsRun(t) && i <= j < |t| && forall k :: i <= k < j ==> t[k].cancel
    ensures Committed(t[j]) <= Committed(t[i])
    decreases j
  {
    if i < j {
      NothingNewUnderCancel(t, i, j - 1);
      RunSteps(t, j);
      StepUnderCancel(t[j - 1], t[j]);
    }
  }

  /**
   While a cancel request stands nothing new is started, except the one group for which the runner
   had already looked for the request and found none.
   */
  lemma CancelStopsNewGroups(t: seq<World>, i: nat, j: nat, p: nat, q: nat)
    requires IsRun(t) && i <= j < |t| && forall k :: i <= k < j ==> t[k].cancel
    requires |t[i].log| <= p <= q < |t[j].log| && t[j].log[p].Started? && t[j].log[q].Started?
    ensures p == q && (t[i].runner.Cleared? || t[i].runner.Armed?)
  {
    NothingNewUnderCancel(t, i, j);
    RunsAreMonotone(t, i, j);
    assert t[j].log[..|t[i].log|] == t[i].log;
    StartsAmong(t[j].log, |t[i].log|, p, q);
  }

  // ----- Inspection -----

  datatype InspectError = NoState | PlanMismatch

  /** What `inspect_lifecycle` shows for the checkpoint it read and the lock it then found held or free. */
  function Inspect(disk: Option<Checkpoint>, request: Request, active: bool): Result<Checkpoint, InspectError> {
    match disk
    case None => Err(NoState)
    case Some(c) =>
      if c.plan != request then Err(PlanMismatch)
      else if c.phase.Running? && !active then Ok(c.(phase := c.Interrupted(), pid := None))
      else Ok(c)
  }

  datatype Inspection = Inspection(state: Checkpoint, runnerActive: bool)

  /**
   The report of an inspection that reads the checkpoint at `i` and tries the lock at `j`. The lock is
   held by a runner, or for a moment by another inspection: it is then `contended`.
   */
  function Report(t: seq<World>, i: nat, j: nat, request: Request, contended: bool): Result<Inspection, InspectError>
    requires i <= j < |t|
  {
    var active := !t[j].runner.Idle? || contended;
    var seen := Inspect(t[i].disk, request, active);
    if seen.Ok? then Ok(Inspection(seen.value, active)) else Err(seen.error)
  }

  /** What a report shows: the checkpoint read, with an abandoned group judged by its stage. */
  lemma ReportByStage(t: seq<World>, i: nat, j: nat, request: Request, contended: bool)
    requires i <= j < |t|
    ensures var r := Report(t, i, j, request, contended);
            && (r == Err(NoState) <==> t[i].disk.None?)
            && (r == Err(PlanMismatch) <==> t[i].disk.Some? && t[i].disk.value.plan != request)
            && (r.Ok? && (!t[i].disk.value.phase.Running? || r.value.runnerActive) ==> r.value.state == t[i].disk.value)
            && (r.Ok? && t[i].disk.value.phase.Running? && !r.value.runnerActive ==>
                  && r.value.state.phase == (if OnceOnly(t[i].disk.value) then Indeterminate else Failed)
                  && r.value.state == t[i].disk.value.(phase := r.value.state.phase, pid := None))
  {
  }

  /** An idle runner with this phase as its verdict. */
  predicate ShowsPhase(w: World, request: Request, phase: Phase) {
    var seen := Inspect(w.disk, request, false);
    seen.Ok? && seen.value.phase == phase
  }

  /** From an abandoned `Running` checkpoint: still as found, or settled. */
  ghost predicate SettlesTo(found: World, w: World)
    requires found.disk.Some?
  {
    && w.log == found.log && w.disk.Some? && w.disk.value.plan == found.disk.value.plan
    && (w.runner.Idle? || w.runner.Holding?)
    && (w.disk == found.disk
        || (w.disk.value.phase == found.disk.value.Interrupted() && w.disk.value.phase.Terminal()))
  }

  lemma SettlingStep(found: World, w: World, w': World)
    requires found.disk.Some? && found.disk.value.phase.Running?
    requires SettlesTo(found, w) && Step(w, w')
    ensures SettlesTo(found, w')
  {
  }

  /** The stretch of a run from `i` to `j`, one step after another. */
  ghost predicate Stretch(t: seq<World>, i: nat, j: nat)
    requires i <= j < |t|
    decreases j
  {
    i == j || (Stretch(t, i, j - 1) && Step(t[j - 1], t[j]))
  }

  lemma {:induction false} RunStretches(t: seq<World>, i: nat, j: nat)
    requires IsRun(t) && i <= j < |t|
    ensures Stretch(t, i, j)
    decreases j
  {
    if i < j {
      RunStretches(t, i, j - 1);
      RunSteps(t, j);
    }
  }

  lemma {:induction false} SettlesAlong(found: World, t: seq<World>, i: nat, j: nat)
    requires found.disk.Some? && found.disk.value.phase.Running?
    requires i <= j < |t| && Stretch(t, i, j) && SettlesTo(found, t[i])
    ensures SettlesTo(found, t[j])
    decreases j
  {
    if i < j {
      SettlesAlong(found, t, i, j - 1);
      SettlingStep(found, t[j - 1], t[j]);
    }
  }

  lemma UnsettledStaysPut(t: seq<World>, i: nat, j: nat)
    requires IsRun(t) && i <= j < |t|
    requires t[i].runner.Idle? && t[i].disk.Some? && t[i].disk.value.phase.Running?
    ensures SettlesTo(t[i], t[j])
  {
    RunStretches(t, i, j);
    SettlesAlong(t[i], t, i, j);
  }

  /**
   A terminal phase shown at one moment for an idle generation is final: in every continuation the
   disk shows that phase or is not yet rewritten, and nothing more is started.
   */
  lemma IdleInspectionForetells(t: seq<World>, i: nat, j: nat, request: Request)
    requires IsRun(t) && i <= j < |t| && t[i].runner.Idle?
    requires var seen := Inspect(t[i].disk, request, false);
             seen.Ok? && seen.value.phase.Terminal()
    ensures t[j].log == t[i].log && t[j].disk.Some?
    ensures t[j].disk == t[i].disk
            || t[j].disk.value.phase == Inspect(t[i].disk, request, false).value.phase
    ensures ShowsPhase(t[j], request, Inspect(t[i].disk, request, false).value.phase)
  {
    if t[i].disk.value.phase.Running? {
      UnsettledStaysPut(t, i, j);
    } else {
      RunsAreMonotone(t, i, j);
    }
  }

  /** Whatever happens after the run `t`, nothing more starts and every look finds this phase. */
  ghost predicate Final(t: seq<World>, request: Request, phase: Phase)
    requires |t| > 0
  {
    forall u: seq<World>, k :: IsRun(u) && t <= u && |t| - 1 <= k < |u| ==>
      u[k].log == t[|t| - 1].log && ShowsPhase(u[k], request, phase)
  }

  /**
   The verdict of an inspection whose lock attempt ended the run `t` is final exactly when the
   checkpoint at that moment, and not only at the earlier read, still gives it.
   */
  lemma VerdictIsFinalExactlyWhenCurrent(t: seq<World>, i: nat, request: Request, contended: bool)
    requires IsRun(t) && i < |t|
    requires var seen := Report(t, i, |t| - 1, request, contended);
             seen.Ok? && !seen.value.runnerActive && seen.value.state.phase.Terminal()
    ensures var phase := Report(t, i, |t| - 1, request, contended).value.state.phase;
            Final(t, request, phase) <==> ShowsPhase(t[|t| - 1], request, phase)
  {
    var j, phase := |t| - 1, Report(t, i, |t| - 1, request, contended).value.state.phase;
    if ShowsPhase(t[j], request, phase) {
      forall u: seq<World>, k | IsRun(u) && t <= u && j <= k < |u|
        ensures u[k].log == t[j].log && ShowsPhase(u[k], request, phase)
      {
        assert u[j] == t[j];
        IdleInspectionForetells(u, j, k, request);
      }
    } else {
      assert t <= t && j < |t|;
    }
  }

  /** "No runner is active" is always right; "active" is right exactly unless only another inspection held the lock. */
  lemma ActiveIsRightUnlessContended(t: seq<World>, i: nat, j: nat, request: Request, contended: bool)
    requires IsRun(t) && i <= j < |t| && Report(t, i, j, request, contended).Ok?
    ensures var seen := Report(t, i, j, request, contended).value;
            && (!seen.runnerActive ==> t[j].runner.Idle?)
            && ((seen.runnerActive <==> !t[j].runner.Idle?) <==> !(contended && t[j].runner.Idle?))
            && (seen.state.phase.Running? ==> seen.runnerActive)
  {
  }

  /** What the reader can tell: a checkpoint that was not `Running` when read gives a final verdict. */
  lemma SettledReadIsFinal(t: seq<World>, i: nat, request: Request)
    requires IsRun(t) && i < |t| && t[|t| - 1].runner.Idle?
    requires t[i].disk.Some? && t[i].disk.value.plan == request && t[i].disk.value.phase.Terminal()
    ensures Final(t, request, t[i].disk.value.phase)
  {
    RunsAreMonotone(t, i, |t| - 1);
    VerdictIsFinalExactlyWhenCurrent(t, i, request, false);
  }

  /** One stage with one command, run from its first checkpoint to completion. */
  function CompletingRun(request: Request): seq<World>
    requires |request.stages| == 1 && |request.stages[0].commands| == 1
  {
    var c := FreshCheckpoint(request);
    var g := Group(0, 0);
    [ INITIAL,
      World(None, false, Holding, []),
      World(Some(c), false, Holding, []),
      World(Some(c), false, Cleared, []),
      World(Some(c.(phase := Running)), false, Armed, []),
      World(Some(c.(phase := Running)), false, Waiting, [Started(g)]),
      World(Some(c.(phase := Running)), false, Finished(Success), [Started(g), Ended(g, Success)]),
      World(Some(c.(phase := After, command := 1)), false, Holding, [Started(g), Ended(g, Success)]),
      World(Some(c.(stage := 1, phase := Before)), false, Holding, [Started(g), Ended(g, Success)]),
      World(Some(c.(stage := 1, phase := Complete)), false, Holding, [Started(g), Ended(g, Success)]),
      World(Some(c.(stage := 1, phase := Complete)), false, Idle, [Started(g), Ended(g, Success)]) ]
  }

  lemma CompletingRunIsRun(request: Request)
    requires |request.stages| == 1 && |request.stages[0].commands| == 1
    ensures IsRun(CompletingRun(request))
  {
    var t := CompletingRun(request);
    assert Acquired(t[0], t[1]) && Created(t[1], t[2]) && Checked(t[2], t[3]) && StoredRunning(t[3], t[4]);
    assert Launched(t[4], t[5]) && Reaped(t[5], t[6]) && Recorded(t[6], t[7]) && Advanced(t[7], t[8]);
    assert Completed(t[8], t[9]) && Released(t[9], t[10]);
    forall i | 0 < i < |t|
      ensures StepAt(t, i)
    {
      assert i == 1 || i == 2 || i == 3 || i == 4 || i == 5 || i == 6 || i == 7 || i == 8 || i == 9 || i == 10;
    }
  }

  /**
   The two reads can straddle the end of a run: the report then calls a generation indeterminate,
   with no runner active, that is complete on disk.
   */
  lemma ReportCanBeStale(request: Request)
    requires |request.stages| == 1 && |request.stages[0].commands| == 1 && request.stages[0].stage.IsOneTime()
    ensures var t := CompletingRun(request);
            && IsRun(t) && |t| == 11 && t[10].runner.Idle?
            && Report(t, 5, 10, request, false).Ok? && !Report(t, 5, 10, request, false).value.runnerActive
            && Report(t, 5, 10, request, false).value.state.phase.Indeterminate?
            && t[10].disk.Some? && t[10].disk.value.phase.Complete?
            && !Final(t, request, Indeterminate)
  {
    CompletingRunIsRun(request);
    VerdictIsFinalExactlyWhenCurrent(CompletingRun(request), 5, request, false);
  }

  /** Two inspections of a finished generation: while one holds the lock the other reports a runner. */
  lemma IdleReportedActive(request: Request)
    requires |request.stages| == 1 && |request.stages[0].commands| == 1
    ensures var t := CompletingRun(request);
            && IsRun(t) && |t| == 11 && t[10].runner.Idle?
            && Report(t, 10, 10, request, true).Ok? && Report(t, 10, 10, request, true).value.runnerActive
  {
    CompletingRunIsRun(request);
  }
}
