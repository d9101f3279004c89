/** The menu bar supervisor and those who stop it, interleaved at every atomic operation. */
module Supervisor {
  import opened Prelude

  const MIN_BACKOFF := 1
  const MAX_BACKOFF := 30

  /** Where the supervisor is. `Wait` and `Sleep` are the two selects with the stop notice. */
  datatype Pc = Unstarted | Loop | Spawn | Wait | Grace | Check | Sleep | StoreRunning | NotifyDone | Ended

  /** Where the caller is that found `stopping` unset. Every other caller is done after its swap. */
  datatype Caller = NoCaller | Loading | Notifying | Called

  /** A Notify holds one permit at most. `late` counts children spawned after `stopping` was set. */
  datatype State = State(
    running: bool,
    stopping: bool,
    stop: bool,
    done: bool,
    pc: Pc,
    child: bool,
    backoff: int,
    caller: Caller,
    late: nat,
    spawnFailed: bool)

  const INITIAL := State(false, false, false, false, Unstarted, false, MIN_BACKOFF, NoCaller, 0, false)

  datatype Step =
    | Start
    | Looks
    | Spawns(ok: bool)
    | Waits(notified: bool)
    | Reaps
    | Checks(settled: bool)
    | Sleeps(notified: bool)
    | Leaves
    | ChildExits
    | BeginStop
    | CallerGoes

  predicate Enabled(s: State, step: Step) {
    match step
    case Start => s.pc.Unstarted?
    case Looks => s.pc.Loop?
    case Spawns(_) => s.pc.Spawn?
    case Waits(notified) => s.pc.Wait? && if notified then s.stop else !s.child
    case Reaps => s.pc.Grace?
    case Checks(_) => s.pc.Check?
    case Sleeps(notified) => s.pc.Sleep? && (notified ==> s.stop)
    case Leaves => s.pc.StoreRunning? || s.pc.NotifyDone?
    case ChildExits => s.child
    case BeginStop => true
    case CallerGoes => s.caller.Loading? || s.caller.Notifying?
  }

  function Next(s: State, step: Step): State
    requires Enabled(s, step)
  {
    match step
    case Start => s.(running := true, pc := Loop)
    case Looks => s.(pc := if s.stopping then StoreRunning else Spawn)
    case Spawns(ok) =>
      if ok then s.(child := true, pc := Wait, late := if s.stopping then s.late + 1 else s.late)
      else s.(pc := StoreRunning, spawnFailed := true)
    case Waits(notified) => if notified then s.(stop := false, pc := Grace) else s.(pc := Check)
    case Reaps => s.(child := false, pc := Check)
    case Checks(settled) =>
      if s.stopping then s.(pc := StoreRunning)
      else s.(backoff := if settled then MIN_BACKOFF else s.backoff, pc := Sleep)
    case Sleeps(notified) =>
      if notified then s.(stop := false, pc := StoreRunning)
      else s.(backoff := if s.backoff * 2 <= MAX_BACKOFF then s.backoff * 2 else MAX_BACKOFF, pc := Loop)
    case Leaves => if s.pc.StoreRunning? then s.(running := false, pc := NotifyDone) else s.(done := true, pc := Ended)
    case ChildExits => s.(child := false)
    case BeginStop => if s.stopping then s else s.(stopping := true, caller := Loading)
    case CallerGoes =>
      if s.caller.Loading? then s.(caller := if s.running then Notifying else Called)
      else s.(stop := true, caller := Called)
  }

  ghost predicate CanRun(s: State, steps: seq<Step>)
    decreases |steps|
  {
    steps == [] || (Enabled(s, steps[0]) && CanRun(Next(s, steps[0]), steps[1..]))
  }

  ghost function Run(s: State, steps: seq<Step>): State
    requires CanRun(s, steps)
    decreases |steps|
  {
    if steps == [] then s else Run(Next(s, steps[0]), steps[1..])
  }

  // ---------------------------------------------------------------- what every step keeps

  predicate Active(pc: Pc) {
    !pc.Unstarted? && !pc.NotifyDone? && !pc.Ended?
  }

  predicate Inv(s: State) {
    && (s.running <==> Active(s.pc))
    && (s.child ==> s.pc.Wait? || s.pc.Grace?)
    && (s.stop ==> s.stopping)
    && (s.stopping <==> !s.caller.NoCaller?)
    && MIN_BACKOFF <= s.backoff <= MAX_BACKOFF
    && (s.done <==> s.pc.Ended?)
    // the notice is there, or on its way, wherever the supervisor would wait for it
    && (s.stopping && (s.pc.Spawn? || s.pc.Wait? || s.pc.Sleep?) ==> s.stop || s.caller.Loading? || s.caller.Notifying?)
    && (s.pc.Grace? ==> s.stopping)
    && (s.late > 0 ==> s.stopping && !s.pc.Loop? && !s.pc.Spawn?  && !s.pc.Sleep? && !s.pc.Unstarted?)
    && s.late <= 1
    && (s.pc.StoreRunning? || s.pc.NotifyDone? || s.pc.Ended? ==> s.stopping || s.spawnFailed)
  }

  lemma StepKeeps(s: State, step: Step)
    requires Inv(s) && Enabled(s, step)
    ensures Inv(Next(s, step))
  {
  }

  lemma {:induction false} RunKeeps(s: State, steps: seq<Step>)
    requires Inv(s) && CanRun(s, steps)
    ensures Inv(Run(s, steps))
    decreases |steps|
  {
    if steps != [] {
      StepKeeps(s, steps[0]);
      RunKeeps(Next(s, steps[0]), steps[1..]);
    }
  }

  // ---------------------------------------------------------------- main results

  /** However the callers interleave with start and the supervisor: one child at most is
      spawned after the stop, no child outlives the loop, and the loop only ever ends because
      of a stop or a failed start. */
  lemma StopHolds(steps: seq<Step>)
    requires CanRun(INITIAL, steps)
    ensures var s := Run(INITIAL, steps);
            && s.late <= 1
            && (s.pc.StoreRunning? || s.pc.NotifyDone? || s.pc.Ended? ==> !s.child && (s.stopping || s.spawnFailed))
            && (s.done ==> s.pc.Ended? && !s.running)
  {
    RunKeeps(INITIAL, steps);
  }

  lemma BackoffBounded(steps: seq<Step>)
    requires CanRun(INITIAL, steps)
    ensures MIN_BACKOFF <= Run(INITIAL, steps).backoff <= MAX_BACKOFF
  {
    RunKeeps(INITIAL, steps);
  }

  /** Seconds slept after so many restarts in a row. */
  function Delay(restarts: nat): nat {
    if restarts < 5 then [1, 2, 4, 8, 16][restarts] else 30
  }

  /** Sleeps that were not cut short by a stop: each is followed by another start. */
  function Restarts(steps: seq<Step>): nat {
    if steps == [] then 0 else (if steps[0] == Sleeps(false) then 1 else 0) + Restarts(steps[1..])
  }

  predicate HasLeft(s: State) {
    s.pc.StoreRunning? || s.pc.NotifyDone? || s.pc.Ended?
  }

  lemma StepBackoff(s: State, step: Step, restarts: nat)
    requires Inv(s) && Enabled(s, step)
    ensures step == Checks(true) ==> HasLeft(Next(s, step)) || Next(s, step).backoff == Delay(0)
    ensures step != Checks(true) && (HasLeft(s) || s.backoff == Delay(restarts)) ==>
              HasLeft(Next(s, step)) || Next(s, step).backoff == Delay(restarts + Restarts([step]))
  {
    assert [step][1..] == [];
  }

  lemma RestartsFirst(steps: seq<Step>)
    requires steps != []
    ensures Restarts(steps) == Restarts([steps[0]]) + Restarts(steps[1..])
  {
    assert [steps[0]][1..] == [];
  }

  lemma {:induction false} RunBackoff(s: State, steps: seq<Step>, restarts: nat)
    requires Inv(s) && CanRun(s, steps) && Checks(true) !in steps
    requires HasLeft(s) || s.backoff == Delay(restarts)
    ensures HasLeft(Run(s, steps)) || Run(s, steps).backoff == Delay(restarts + Restarts(steps))
    decreases |steps|
  {
    if steps != [] {
      StepKeeps(s, steps[0]);
      StepBackoff(s, steps[0], restarts);
      RestartsFirst(steps);
      RunBackoff(Next(s, steps[0]), steps[1..], restarts + Restarts([steps[0]]));
    }
  }

  lemma {:induction false} RunJoin(s: State, before: seq<Step>, after: seq<Step>)
    requires CanRun(s, before + after)
    ensures CanRun(s, before) && CanRun(Run(s, before), after)
    ensures Run(s, before + after) == Run(Run(s, before), after)
    decreases |before|
  {
    if before == [] {
      assert before + after == after;
    } else {
      assert (before + after)[1..] == before[1..] + after;
      RunJoin(Next(s, before[0]), before[1..], after);
    }
  }

  lemma SettledLast(s: State, steps: seq<Step>)
    requires Inv(s) && CanRun(s, steps) && steps != [] && steps[|steps| - 1] == Checks(true)
    ensures HasLeft(Run(s, steps)) || Run(s, steps).backoff == Delay(0)
  {
    var init, last := steps[..|steps| - 1], [Checks(true)];
    assert steps == init + last;
    RunJoin(s, init, last);
    RunKeeps(s, init);
    OneStep(Run(s, init), Checks(true));
    StepBackoff(Run(s, init), Checks(true), 0);
  }

  lemma OneStep(s: State, step: Step)
    requires CanRun(s, [step])
    ensures Enabled(s, step) && Run(s, [step]) == Next(s, step)
  {
    assert [step][1..] == [];
  }

  /** While the loop runs, the time it sleeps is set by the restarts since the child last ran
      long enough: one second at first, twice as long after each, and never above 30. */
  lemma BackoffExactly(before: seq<Step>, after: seq<Step>)
    requires CanRun(INITIAL, before) && CanRun(Run(INITIAL, before), after) && Checks(true) !in after
    requires before == [] || before[|before| - 1] == Checks(true)
    ensures var s := Run(Run(INITIAL, before), after); HasLeft(s) || s.backoff == Delay(Restarts(after))
  {
    RunKeeps(INITIAL, before);
    if before != [] {
      SettledLast(INITIAL, before);
    }
    RunBackoff(Run(INITIAL, before), after, 0);
  }

  /** Steps of the supervisor and of the caller that has to notify it. */
  predicate Helps(step: Step) {
    !step.Start? && !step.ChildExits? && !step.BeginStop?
  }

  function PcRank(pc: Pc): nat {
    match pc
    case Sleep => 8
    case Loop => 7
    case Spawn => 6
    case Wait => 5
    case Grace => 4
    case Check => 3
    case StoreRunning => 2
    case NotifyDone => 1
    case _ => 0
  }

  function CallerRank(caller: Caller): nat {
    if caller.Loading? then 2 else if caller.Notifying? then 1 else 0
  }

  function Rank(s: State): nat {
    PcRank(s.pc) + CallerRank(s.caller)
  }

  lemma RankFalls(s: State, step: Step)
    requires Inv(s) && s.stopping && Enabled(s, step) && !s.pc.Unstarted?
    ensures Rank(Next(s, step)) <= Rank(s) - (if Helps(step) then 1 else 0)
    ensures Next(s, step).stopping && !Next(s, step).pc.Unstarted?
  {
  }

  /** The stop is never lost: until the loop has ended, the supervisor or its notifier can go on. */
  lemma NeverStuck(steps: seq<Step>) returns (step: Step)
    requires CanRun(INITIAL, steps) && Run(INITIAL, steps).stopping
    requires !Run(INITIAL, steps).pc.Unstarted? && !Run(INITIAL, steps).pc.Ended?
    ensures Helps(step) && Enabled(Run(INITIAL, steps), step)
  {
    RunKeeps(INITIAL, steps);
    var s := Run(INITIAL, steps);
    match s.pc
    case Loop => step := Looks;
    case Spawn => step := Spawns(true);
    case Wait => step := if s.stop then Waits(true) else CallerGoes;
    case Grace => step := Reaps;
    case Check => step := Checks(false);
    case Sleep => step := Sleeps(false);
    case _ => step := Leaves;
  }

  function Helping(steps: seq<Step>): nat {
    if steps == [] then 0 else (if Helps(steps[0]) then 1 else 0) + Helping(steps[1..])
  }

  /** After ten steps of the supervisor and its notifier the loop has ended and done is
      signalled, whatever the children and other callers do meanwhile. */
  lemma {:induction false} EndsSoon(s: State, steps: seq<Step>)
    requires Inv(s) && s.stopping && !s.pc.Unstarted? && CanRun(s, steps) && Helping(steps) >= Rank(s)
    ensures Run(s, steps).pc.Ended? && Run(s, steps).done
    decreases |steps|
  {
    RunKeeps(s, steps);
    if steps != [] {
      RankFalls(s, steps[0]);
      StepKeeps(s, steps[0]);
      EndsSoon(Next(s, steps[0]), steps[1..]);
    }
  }

  lemma RankSmall(s: State)
    ensures Rank(s) <= 10
  {
  }

  /** Who stops and finds nothing running, or is told that it is done, can rely on it: no
      child lives, and none is spawned any more, not even by a start that comes later. */
  predicate Over(s: State) {
    s.stopping && (!s.running || s.done)
  }

  lemma {:induction false} NoChildAgain(s: State, steps: seq<Step>)
    requires Inv(s) && CanRun(s, steps)
    requires Over(s) || (s.stopping && !s.child && (s.pc.Loop? || s.pc.StoreRunning?))
    ensures !Run(s, steps).child && Run(s, steps).late == s.late
    decreases |steps|
  {
    if steps != [] {
      StepKeeps(s, steps[0]);
      NoChildAgain(Next(s, steps[0]), steps[1..]);
    }
  }

  /** A stop from before the start: the supervisor ends without having spawned anything. */
  lemma StoppedBeforeStart(before: seq<Step>, after: seq<Step>)
    requires CanRun(INITIAL, before) && Run(INITIAL, before).stopping && Run(INITIAL, before).pc.Unstarted?
    requires CanRun(Run(INITIAL, before), after)
    ensures !Run(Run(INITIAL, before), after).child && Run(Run(INITIAL, before), after).late == 0
  {
    RunKeeps(INITIAL, before);
    NoChildAgain(Run(INITIAL, before), after);
  }
}
