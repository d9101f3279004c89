/** Turning sleep off for a closed lid, step by step: the app, the sentinel it leaves
    on guard, what a crashed app left behind, and everybody else. */
module LidMachine {
  import opened Prelude

  datatype Lid = Held | Refused | Cleared

  /** A process that resets sleep and then removes the marker. The sentinel waits for
      its pipe to close first. The boot guard is one whose pipe never was open. */
  datatype Process = Gone | Waiting | Closed | ResetDone | Ended(ok: bool)

  /** How giving back an owned setting went. */
  datatype Settling = Untouched | Pending | Reset | Failed

  /** `turned` counts how often this hold turned the setting on. */
  datatype HoldState = HoldState(owned: bool, state: Option<Lid>, turned: nat, settling: Settling)

  const NEW_HOLD := HoldState(false, None, 0, Untouched)

  datatype Back = ToTake | ToKeep

  datatype After = ToCleared | ToReleased

  /** The instruction the app runs next. */
  datatype Pc =
    | Off
    | RecoverLook | RecoverRead | RecoverSet | RecoverRemove
    | Idle
    | TakeRead | TakeSet | TakeDisarm | TakeRemove
    | ArmLook(back: Back) | ArmWrite(back: Back) | ArmSpawn(back: Back)
    | KeepRead
    | SettleClose(after: After) | SettleWait(after: After) | SettleSet(after: After) | SettleRemove(after: After)
    | ReleaseDisarm

  /** `disabled` is the system setting. `ours` says that Tiles turned sleep off and
      nobody has turned it on again since. `stale` are the processes from before the app's
      launch. `path` is whether the app knows where its marker is. */
  datatype World = World(
    disabled: bool,
    ours: bool,
    marker: bool,
    path: bool,
    hold: Option<HoldState>,
    sentinel: Process,
    stale: seq<Process>,
    pc: Pc)

  datatype Step =
    | Launch(path: bool)
    | NewHold
    | Keep
    | Release
    | App(ok: bool)
    | SentinelRuns(ok: bool)
    | SentinelKilled
    | StaleRuns(which: nat, ok: bool)
    | StaleKilled(which: nat)
    | Outside(disabled: bool)
    | Crash
    | Reboot

  predicate Alive(p: Process) {
    p.Waiting? || p.Closed? || p.ResetDone?
  }

  predicate AnyAlive(ps: seq<Process>) {
    exists i :: 0 <= i < |ps| && Alive(ps[i])
  }

  predicate AnyReset(ps: seq<Process>) {
    exists i :: 0 <= i < |ps| && ps[i].ResetDone?
  }

  // ---------------------------------------------------------------- steps

  /** Sleep turned on again, by anyone. */
  function TurnedOn(w: World): World {
    w.(disabled := false, ours := false)
  }

  function SetState(w: World, lid: Lid): World
    requires w.hold.Some?
  {
    w.(hold := Some(w.hold.value.(state := Some(lid))), pc := Idle)
  }

  function Settled(w: World, settling: Settling): World
    requires w.hold.Some?
  {
    w.(hold := Some(w.hold.value.(settling := settling)))
  }

  function Finish(w: World, after: After): World
    requires w.hold.Some?
  {
    if after.ToCleared? then SetState(w, Cleared) else w.(pc := ReleaseDisarm)
  }

  function Armed(w: World, back: Back): World
    requires w.hold.Some?
  {
    if back.ToTake? then w.(pc := TakeSet) else SetState(w, Held)
  }

  function NotArmed(w: World, back: Back): World
    requires w.hold.Some?
  {
    if back.ToTake? then w.(pc := TakeDisarm) else SetState(w, Held)
  }

  predicate HasHold(pc: Pc) {
    !pc.Off? && !pc.RecoverLook? && !pc.RecoverRead? && !pc.RecoverSet? && !pc.RecoverRemove? && !pc.Idle?
  }

  /** What the system allows. */
  predicate Enabled(w: World, step: Step) {
    match step
    case Launch(_) => w.pc.Off?
    case NewHold => w.pc.Idle? && w.hold.None?
    case Keep => w.pc.Idle? && w.hold.Some?
    case Release => w.pc.Idle? && w.hold.Some?
    case App(_) =>
      && !w.pc.Off? && !w.pc.Idle? && (HasHold(w.pc) ==> w.hold.Some?)
      && (w.pc.SettleWait? ==> w.sentinel.Ended?)
    case SentinelRuns(_) => w.sentinel.Closed? || w.sentinel.ResetDone?
    case SentinelKilled => Alive(w.sentinel)
    case StaleRuns(i, _) => i < |w.stale| && (w.stale[i].Closed? || w.stale[i].ResetDone?)
    case StaleKilled(i) => i < |w.stale| && Alive(w.stale[i])
    case Outside(_) => true
    case Crash => !w.pc.Off?
    case Reboot => true
  }

  /** What is taken for granted: the processes left from before are over when a hold arms. */
  predicate Timely(w: World, step: Step) {
    step.App? && w.pc.ArmLook? ==> !AnyAlive(w.stale)
  }

  function AppNext(w: World, ok: bool): World
    requires Enabled(w, App(ok))
  {
    match w.pc
    case RecoverLook => w.(pc := if w.path && w.marker then RecoverRead else Idle)
    case RecoverRead => w.(pc := if w.disabled then RecoverSet else RecoverRemove)
    case RecoverSet => if ok then TurnedOn(w).(pc := RecoverRemove) else w.(pc := Idle)
    case RecoverRemove => w.(marker := w.marker && !ok, pc := Idle)
    case TakeRead => if w.disabled then SetState(w, Held) else w.(pc := ArmLook(ToTake))
    case ArmLook(back) =>
      if !w.path then NotArmed(w, back)
      else w.(pc := if w.marker then ArmSpawn(back) else ArmWrite(back))
    case ArmWrite(back) => if ok then w.(marker := true, pc := ArmSpawn(back)) else NotArmed(w, back)
    case ArmSpawn(back) =>
      if Alive(w.sentinel) then Armed(w, back)
      else if ok then Armed(w.(sentinel := Waiting), back)
      else NotArmed(w.(sentinel := Gone), back)
    case TakeSet =>
      if ok then
        SetState(w.(disabled := true, ours := true,
                    hold := Some(w.hold.value.(owned := true, turned := w.hold.value.turned + 1))), Held)
      else w.(pc := TakeDisarm)
    case TakeDisarm => w.(sentinel := Gone, pc := TakeRemove)
    case TakeRemove => SetState(w.(marker := w.marker && !(w.path && ok)), Refused)
    case KeepRead =>
      if w.disabled then (if w.hold.value.owned then w.(pc := ArmLook(ToKeep)) else SetState(w, Held))
      else if w.hold.value.owned then w.(pc := SettleClose(ToCleared))
      else SetState(w, Cleared)
    case SettleClose(after) =>
      var h := w.hold.value.(owned := false, settling := Pending);
      if w.sentinel.Gone? then w.(hold := Some(h), pc := SettleSet(after))
      else w.(hold := Some(h), sentinel := if w.sentinel.Waiting? then Closed else w.sentinel, pc := SettleWait(after))
    case SettleWait(after) =>
      var done := w.(sentinel := Gone);
      if w.sentinel.ok then Finish(done, after) else done.(pc := SettleSet(after))
    case SettleSet(after) =>
      if ok then Settled(TurnedOn(w), Reset).(pc := SettleRemove(after))
      else Finish(Settled(w, if w.hold.value.settling.Pending? then Failed else w.hold.value.settling), after)
    case SettleRemove(after) => Finish(w.(marker := w.marker && !(w.path && ok)), after)
    case ReleaseDisarm => w.(sentinel := Gone, hold := None, pc := Idle)
  }

  /** The reset, then the marker. */
  function ProcessNext(p: Process, ok: bool): Process {
    if p.Closed? then (if ok then ResetDone else Ended(false)) else Ended(ok)
  }

  function ProcessDone(w: World, p: Process, ok: bool): World {
    if !ok then w else if p.Closed? then TurnedOn(w) else w.(marker := false)
  }

  /** The app is gone, and with it its end of the pipe. */
  function Orphan(p: Process): Process {
    if p.Waiting? then Closed else p
  }

  function Next(w: World, step: Step): World
    requires Enabled(w, step)
  {
    match step
    case Launch(path) => w.(path := path, pc := RecoverLook)
    case NewHold => w.(hold := Some(NEW_HOLD))
    case Keep =>
      (match w.hold.value.state
       case None => w.(pc := TakeRead)
       case Some(Held) => w.(pc := KeepRead)
       case Some(_) => w)
    case Release => w.(pc := if w.hold.value.owned then SettleClose(ToReleased) else ReleaseDisarm)
    case App(ok) => AppNext(w, ok)
    case SentinelRuns(ok) =>
      var done := ProcessDone(w, w.sentinel, ok).(sentinel := ProcessNext(w.sentinel, ok));
      if w.sentinel.Closed? && ok && w.hold.Some? then Settled(done, Reset) else done
    case SentinelKilled => w.(sentinel := Ended(false))
    case StaleRuns(i, ok) => ProcessDone(w, w.stale[i], ok).(stale := w.stale[i := ProcessNext(w.stale[i], ok)])
    case StaleKilled(i) => w.(stale := w.stale[i := Ended(false)])
    case Outside(disabled) => if disabled then w.(disabled := true) else TurnedOn(w)
    case Crash =>
      w.(pc := Off, hold := None, sentinel := Gone,
         stale := if Alive(w.sentinel) then w.stale + [Orphan(w.sentinel)] else w.stale)
    case Reboot =>
      w.(pc := Off, hold := None, sentinel := Gone, stale := if w.marker then [Closed] else [])
  }

  ghost predicate CanRun(w: World, steps: seq<Step>)
    decreases |steps|
  {
    steps == [] || (Enabled(w, steps[0]) && CanRun(Next(w, steps[0]), steps[1..]))
  }

  ghost function Run(w: World, steps: seq<Step>): World
    requires CanRun(w, steps)
    decreases |steps|
  {
    if steps == [] then w else Run(Next(w, steps[0]), steps[1..])
  }

  ghost predicate AllTimely(w: World, steps: seq<Step>)
    requires CanRun(w, steps)
    decreases |steps|
  {
    steps == [] || (Timely(w, steps[0]) && AllTimely(Next(w, steps[0]), steps[1..]))
  }

  /** A machine on which Tiles did not run yet: sleep may be off, but not because of Tiles. */
  predicate Initial(w: World) {
    !w.ours && w.hold.None? && w.sentinel.Gone? && w.stale == [] && w.pc.Off?
  }

  // ---------------------------------------------------------------- what every step keeps

  predicate InTake(pc: Pc) {
    pc.TakeRead? || pc.TakeSet? || pc.TakeDisarm? || pc.TakeRemove?
    || ((pc.ArmLook? || pc.ArmWrite? || pc.ArmSpawn?) && pc.back.ToTake?)
  }

  predicate InArm(pc: Pc) {
    pc.ArmWrite? || pc.ArmSpawn? || pc.TakeSet?
  }

  predicate InSettle(pc: Pc) {
    pc.SettleWait? || pc.SettleSet? || pc.SettleRemove?
  }

  /** Nobody removes the marker while the setting is ours. */
  predicate Covered(w: World, alive: bool, reset: bool) {
    && (w.ours ==> w.disabled && w.marker)
    && (reset || w.sentinel.ResetDone? || w.pc.SettleRemove? || w.pc.RecoverRemove? ==> !w.ours)
    && (InTake(w.pc) && !w.pc.TakeRead? ==> !w.ours)
    && (InArm(w.pc) ==> !alive)
    && (w.pc.ArmSpawn? || w.pc.TakeSet? ==> w.marker)
  }

  predicate SentinelOk(w: World, alive: bool) {
    && (Alive(w.sentinel) ==> !alive)
    && (w.sentinel.Closed? || w.sentinel.ResetDone? ==> w.pc.SettleWait?)
    && (w.sentinel == Ended(true) ==> w.pc.SettleWait? && w.hold.Some? && w.hold.value.settling.Reset?)
    && (w.sentinel.ResetDone? ==> w.hold.Some? && w.hold.value.settling.Reset?)
    && (w.pc.SettleWait? ==> !w.sentinel.Gone? && !w.sentinel.Waiting?)
  }

  predicate HoldOk(w: World, h: HoldState, alive: bool) {
    && h.turned <= 1
    && ((w.pc.Idle? && h.state.None?) || InTake(w.pc) ==> h == NEW_HOLD)
    && (h.owned ==> w.marker && h.settling.Untouched? && h.state == Some(Held))
    && (h.owned || !h.settling.Untouched? ==> !alive)
    && (w.pc.KeepRead? ==> h.state == Some(Held))
    && (w.pc.SettleClose? || ((w.pc.ArmLook? || w.pc.ArmWrite? || w.pc.ArmSpawn?) && w.pc.back.ToKeep?) ==> h.owned)
    && (w.pc.ReleaseDisarm? ==> !h.owned)
    && (InSettle(w.pc) ==> !h.owned && !h.settling.Untouched? && h.state == Some(Held))
    && (w.pc.SettleRemove? ==> h.settling.Reset?)
    && (h.settling.Pending? ==> InSettle(w.pc) && !w.pc.SettleRemove?)
    && (h.settling.Reset? ==> !w.ours)
    && (h.turned == 1 <==> h.owned || !h.settling.Untouched?)
    && (h.settling.Pending? || h.settling.Failed? ==> w.marker)
  }

  /** The invariant. `alive` and `reset` tell whether a process left from before is alive, and
      whether one is about to remove the marker. */
  predicate InvAs(w: World, alive: bool, reset: bool) {
    && (reset ==> alive)
    && Covered(w, alive, reset)
    && SentinelOk(w, alive)
    && (HasHold(w.pc) ==> w.hold.Some?)
    && (w.hold.Some? ==> HoldOk(w, w.hold.value, alive) && (HasHold(w.pc) || w.pc.Idle?))
    && (w.hold.None? ==> !Alive(w.sentinel))
  }

  predicate Inv(w: World) {
    InvAs(w, AnyAlive(w.stale), AnyReset(w.stale))
  }

  predicate InRecover(pc: Pc) {
    pc.RecoverLook? || pc.RecoverRead? || pc.RecoverSet? || pc.RecoverRemove?
  }

  predicate InSet(pc: Pc) {
    pc.TakeRead? || pc.TakeSet? || pc.TakeDisarm? || pc.TakeRemove?
  }

  lemma RecoverKeeps(w: World, ok: bool, alive: bool, reset: bool)
    requires InvAs(w, alive, reset) && InRecover(w.pc)
    ensures InvAs(AppNext(w, ok), alive, reset) && AppNext(w, ok).stale == w.stale
  {
  }

  lemma LookKeeps(w: World, ok: bool, alive: bool, reset: bool)
    requires InvAs(w, alive, reset) && w.pc.ArmLook? && !alive
    ensures InvAs(AppNext(w, ok), alive, reset) && AppNext(w, ok).stale == w.stale
  {
  }

  lemma WriteKeeps(w: World, ok: bool, alive: bool, reset: bool)
    requires InvAs(w, alive, reset) && w.pc.ArmWrite?
    ensures InvAs(AppNext(w, ok), alive, reset) && AppNext(w, ok).stale == w.stale
  {
  }

  lemma SpawnKeeps(w: World, ok: bool, alive: bool, reset: bool)
    requires InvAs(w, alive, reset) && w.pc.ArmSpawn?
    ensures InvAs(AppNext(w, ok), alive, reset) && AppNext(w, ok).stale == w.stale
  {
  }

  lemma TakeKeeps(w: World, ok: bool, alive: bool, reset: bool)
    requires InvAs(w, alive, reset) && InSet(w.pc)
    ensures InvAs(AppNext(w, ok), alive, reset) && AppNext(w, ok).stale == w.stale
  {
  }

  lemma ReadKeeps(w: World, ok: bool, alive: bool, reset: bool)
    requires InvAs(w, alive, reset) && w.pc.KeepRead?
    ensures InvAs(AppNext(w, ok), alive, reset) && AppNext(w, ok).stale == w.stale
  {
  }

  lemma CloseKeeps(w: World, ok: bool, alive: bool, reset: bool)
    requires InvAs(w, alive, reset) && w.pc.SettleClose?
    ensures InvAs(AppNext(w, ok), alive, reset) && AppNext(w, ok).stale == w.stale
  {
  }

  lemma WaitKeeps(w: World, ok: bool, alive: bool, reset: bool)
    requires InvAs(w, alive, reset) && w.pc.SettleWait? && Enabled(w, App(ok))
    ensures InvAs(AppNext(w, ok), alive, reset) && AppNext(w, ok).stale == w.stale
  {
  }

  lemma SetKeeps(w: World, ok: bool, alive: bool, reset: bool)
    requires InvAs(w, alive, reset) && w.pc.SettleSet?
    ensures InvAs(AppNext(w, ok), alive, reset) && AppNext(w, ok).stale == w.stale
  {
  }

  lemma RemoveKeeps(w: World, ok: bool, alive: bool, reset: bool)
    requires InvAs(w, alive, reset) && w.pc.SettleRemove?
    ensures InvAs(AppNext(w, ok), alive, reset) && AppNext(w, ok).stale == w.stale
  {
  }

  lemma DisarmKeeps(w: World, ok: bool, alive: bool, reset: bool)
    requires InvAs(w, alive, reset) && w.pc.ReleaseDisarm?
    ensures InvAs(AppNext(w, ok), alive, reset) && AppNext(w, ok).stale == w.stale
  {
  }

  lemma AppKeeps(w: World, ok: bool, alive: bool, reset: bool)
    requires InvAs(w, alive, reset) && Enabled(w, App(ok)) && (w.pc.ArmLook? ==> !alive)
    ensures InvAs(AppNext(w, ok), alive, reset) && AppNext(w, ok).stale == w.stale
  {
    match w.pc {
      case ArmLook(_) => LookKeeps(w, ok, alive, reset);
      case ArmWrite(_) => WriteKeeps(w, ok, alive, reset);
      case ArmSpawn(_) => SpawnKeeps(w, ok, alive, reset);
      case KeepRead => ReadKeeps(w, ok, alive, reset);
      case SettleClose(_) => CloseKeeps(w, ok, alive, reset);
      case SettleWait(_) => WaitKeeps(w, ok, alive, reset);
      case SettleSet(_) => SetKeeps(w, ok, alive, reset);
      case SettleRemove(_) => RemoveKeeps(w, ok, alive, reset);
      case ReleaseDisarm => DisarmKeeps(w, ok, alive, reset);
      case _ =>
        if InRecover(w.pc) { RecoverKeeps(w, ok, alive, reset); } else { TakeKeeps(w, ok, alive, reset); }
    }
  }

  lemma StartKeeps(w: World, step: Step, alive: bool, reset: bool)
    requires InvAs(w, alive, reset) && Enabled(w, step) && (step.Launch? || step.NewHold?)
    ensures InvAs(Next(w, step), alive, reset) && Next(w, step).stale == w.stale
  {
  }

  lemma CommandKeeps(w: World, step: Step, alive: bool, reset: bool)
    requires InvAs(w, alive, reset) && Enabled(w, step) && (step.Keep? || step.Release?)
    ensures InvAs(Next(w, step), alive, reset) && Next(w, step).stale == w.stale
  {
  }

  lemma SentinelKeeps(w: World, step: Step, alive: bool, reset: bool)
    requires InvAs(w, alive, reset) && Enabled(w, step) && (step.SentinelRuns? || step.SentinelKilled?)
    ensures InvAs(Next(w, step), alive, reset) && Next(w, step).stale == w.stale
  {
  }

  lemma OutsideKeeps(w: World, disabled: bool, alive: bool, reset: bool)
    requires InvAs(w, alive, reset)
    ensures InvAs(Next(w, Outside(disabled)), alive, reset) && Next(w, Outside(disabled)).stale == w.stale
  {
  }

  /** A process left from before turns sleep on, removes the marker, or ends. */
  lemma LeftKeeps(w: World, p: Process, ok: bool, later: bool, reset: bool, resets: bool)
    requires InvAs(w, true, reset) && (p.Closed? || (p.ResetDone? && reset)) && (resets ==> later)
    requires resets ==> reset || (p.Closed? && ok)
    ensures InvAs(ProcessDone(w, p, ok), later, resets)
  {
  }

  lemma KilledKeeps(w: World, later: bool, reset: bool, resets: bool)
    requires InvAs(w, true, reset) && (resets ==> later && reset)
    ensures InvAs(w, later, resets)
  {
  }

  lemma CrashKeeps(w: World, alive: bool, reset: bool, later: bool, resets: bool)
    requires InvAs(w, alive, reset) && (resets ==> later) && (resets ==> reset || w.sentinel.ResetDone?)
    ensures InvAs(w.(pc := Off, hold := None, sentinel := Gone), later, resets)
  {
  }

  lemma ResetAlive(ps: seq<Process>)
    ensures AnyReset(ps) ==> AnyAlive(ps)
  {
    if i :| 0 <= i < |ps| && ps[i].ResetDone? {
      assert Alive(ps[i]);
    }
  }

  lemma OneChanged(ps: seq<Process>, i: nat, p: Process)
    requires i < |ps| && Alive(ps[i])
    ensures AnyAlive(ps)
    ensures AnyReset(ps[i := p]) ==> AnyReset(ps) || p.ResetDone?
  {
    if AnyReset(ps[i := p]) {
      var k :| 0 <= k < |ps| && ps[i := p][k].ResetDone?;
      assert k != i ==> ps[k].ResetDone?;
    }
  }

  lemma StaleKeeps(w: World, which: nat, ok: bool)
    requires Inv(w) && Enabled(w, StaleRuns(which, ok))
    ensures Inv(Next(w, StaleRuns(which, ok)))
  {
    var p := w.stale[which];
    var after := w.stale[which := ProcessNext(p, ok)];
    OneChanged(w.stale, which, ProcessNext(p, ok));
    assert p.ResetDone? ==> AnyReset(w.stale);
    ResetAlive(after);
    LeftKeeps(w, p, ok, AnyAlive(after), AnyReset(w.stale), AnyReset(after));
  }

  lemma StaleKilledKeeps(w: World, which: nat)
    requires Inv(w) && Enabled(w, StaleKilled(which))
    ensures Inv(Next(w, StaleKilled(which)))
  {
    var after := w.stale[which := Ended(false)];
    OneChanged(w.stale, which, Ended(false));
    ResetAlive(after);
    KilledKeeps(w, AnyAlive(after), AnyReset(w.stale), AnyReset(after));
  }

  lemma OneMoreLeft(ps: seq<Process>, p: Process)
    ensures AnyReset(ps + [p]) ==> AnyReset(ps) || p.ResetDone?
  {
    if k :| 0 <= k < |ps + [p]| && (ps + [p])[k].ResetDone? {
      assert k < |ps| ==> ps[k].ResetDone?;
    }
  }

  lemma AppGone(w: World)
    requires Inv(w) && Enabled(w, Crash)
    ensures Inv(Next(w, Crash))
  {
    var after := Next(w, Crash).stale;
    OneMoreLeft(w.stale, Orphan(w.sentinel));
    ResetAlive(after);
    CrashKeeps(w, AnyAlive(w.stale), AnyReset(w.stale), AnyAlive(after), AnyReset(after));
  }

  lemma Rebooted(w: World)
    requires Inv(w)
    ensures Inv(Next(w, Reboot))
  {
    var after := Next(w, Reboot).stale;
    ResetAlive(after);
    assert !AnyReset(after);
    CrashKeeps(w, AnyAlive(w.stale), AnyReset(w.stale), AnyAlive(after), false);
  }

  lemma StepKeeps(w: World, step: Step)
    requires Inv(w) && Enabled(w, step) && Timely(w, step)
    ensures Inv(Next(w, step))
  {
    var alive, reset := AnyAlive(w.stale), AnyReset(w.stale);
    match step {
      case App(ok) => AppKeeps(w, ok, alive, reset);
      case StaleRuns(which, ok) => StaleKeeps(w, which, ok);
      case StaleKilled(which) => StaleKilledKeeps(w, which);
      case SentinelRuns(_) => SentinelKeeps(w, step, alive, reset);
      case SentinelKilled => SentinelKeeps(w, step, alive, reset);
      case Outside(disabled) => OutsideKeeps(w, disabled, alive, reset);
      case Crash => AppGone(w);
      case Reboot => Rebooted(w);
      case Launch(_) => StartKeeps(w, step, alive, reset);
      case NewHold => StartKeeps(w, step, alive, reset);
      case _ => CommandKeeps(w, step, alive, reset);
    }
  }

  lemma {:induction false} RunKeeps(w: World, steps: seq<Step>)
    requires Inv(w) && CanRun(w, steps) && AllTimely(w, steps)
    ensures Inv(Run(w, steps))
    decreases |steps|
  {
    if steps != [] {
      StepKeeps(w, steps[0]);
      RunKeeps(Next(w, steps[0]), steps[1..]);
    }
  }

  // ---------------------------------------------------------------- main results

  /** Whatever the app, its sentinels and everybody else did, with crashes anywhere: while
      sleep is off because of Tiles, the marker is there. */
  lemma MarkerCovers(w: World, steps: seq<Step>)
    requires Initial(w) && CanRun(w, steps) && AllTimely(w, steps)
    ensures Run(w, steps).ours ==> Run(w, steps).disabled && Run(w, steps).marker
  {
    RunKeeps(w, steps);
  }

  /** A hold turns the setting on once at most. When it is given up after that, sleep was
      turned on again, or both attempts failed and the marker is still there. */
  lemma GivenBack(w: World, steps: seq<Step>)
    requires Initial(w) && CanRun(w, steps) && AllTimely(w, steps) && Run(w, steps).hold.Some?
    ensures var h := Run(w, steps).hold.value;
            && h.turned <= 1
            && (Run(w, steps).pc.ReleaseDisarm? && h.turned == 1 ==>
                  || (h.settling.Reset? && !Run(w, steps).ours)
                  || (h.settling.Failed? && Run(w, steps).marker))
  {
    RunKeeps(w, steps);
  }

  predicate EndsHold(step: Step) {
    step.Release? || step.Crash? || step.Reboot?
  }

  predicate Final(w: World) {
    w.hold.Some? && (w.hold.value.state == Some(Refused) || w.hold.value.state == Some(Cleared)) && w.pc.Idle?
  }

  /** Refused and Cleared are final: the hold does nothing any more, however often it is kept. */
  lemma {:induction false} VerdictFinal(w: World, steps: seq<Step>)
    requires Final(w) && CanRun(w, steps)
    requires forall i :: 0 <= i < |steps| ==> !EndsHold(steps[i])
    ensures Final(Run(w, steps))
    ensures Run(w, steps).hold.value.state == w.hold.value.state
    ensures Run(w, steps).hold.value.turned == w.hold.value.turned
    decreases |steps|
  {
    if steps != [] {
      assert !EndsHold(steps[0]);
      VerdictFinal(Next(w, steps[0]), steps[1..]);
    }
  }

  // ---------------------------------------------------------------- reachable states

  lemma {:induction false} RunMore(w: World, steps: seq<Step>, step: Step)
    requires CanRun(w, steps) && Enabled(Run(w, steps), step)
    ensures CanRun(w, steps + [step]) && Run(w, steps + [step]) == Next(Run(w, steps), step)
    decreases |steps|
  {
    if steps == [] {
      assert steps + [step] == [step];
      assert [step][1..] == [];
    } else {
      assert (steps + [step])[1..] == steps[1..] + [step];
      RunMore(Next(w, steps[0]), steps[1..], step);
    }
  }

  lemma {:induction false} TimelyMore(w: World, steps: seq<Step>, step: Step)
    requires CanRun(w, steps) && AllTimely(w, steps) && Enabled(Run(w, steps), step) && Timely(Run(w, steps), step)
    ensures CanRun(w, steps + [step]) && AllTimely(w, steps + [step])
    decreases |steps|
  {
    RunMore(w, steps, step);
    if steps == [] {
      assert steps + [step] == [step];
      assert [step][1..] == [];
    } else {
      assert (steps + [step])[1..] == steps[1..] + [step];
      TimelyMore(Next(w, steps[0]), steps[1..], step);
    }
  }

  /** Some run in which left processes are over in time leads here. */
  ghost predicate Reachable(w: World) {
    exists first, steps :: Initial(first) && CanRun(first, steps) && AllTimely(first, steps) && Run(first, steps) == w
  }

  lemma ReachableNext(w: World, step: Step)
    requires Reachable(w) && Enabled(w, step) && Timely(w, step)
    ensures Reachable(Next(w, step))
  {
    var first, steps :| Initial(first) && CanRun(first, steps) && AllTimely(first, steps) && Run(first, steps) == w;
    RunMore(first, steps, step);
    TimelyMore(first, steps, step);
  }

  lemma ReachableKeeps(w: World)
    requires Reachable(w)
    ensures Inv(w)
  {
    var first, steps :| Initial(first) && CanRun(first, steps) && AllTimely(first, steps) && Run(first, steps) == w;
    RunKeeps(first, steps);
  }

  // ---------------------------------------------------------------- without the assumption

  predicate WritesMarker(w: World, step: Step) {
    step == App(true) && w.pc.ArmWrite?
  }

  /** A process left from before removes the marker. */
  predicate LateRemoves(w: World, step: Step) {
    step.StaleRuns? && step.ok && step.which < |w.stale| && w.stale[step.which].ResetDone?
  }

  function LostNext(w: World, step: Step, lost: bool): bool {
    LateRemoves(w, step) || (lost && !WritesMarker(w, step))
  }

  /** A process left from before removed the marker, and no hold has written it since. */
  ghost predicate Lost(w: World, steps: seq<Step>, lost: bool)
    requires CanRun(w, steps)
    decreases |steps|
  {
    if steps == [] then lost else Lost(Next(w, steps[0]), steps[1..], LostNext(w, steps[0], lost))
  }

  /** What every step keeps, whatever processes are left. */
  predicate Loose(w: World, lost: bool) {
    && (w.ours ==> w.disabled && (w.marker || lost))
    && (lost ==> !w.marker)
    && (w.sentinel.ResetDone? || w.pc.SettleRemove? || w.pc.RecoverRemove? ==> !w.ours)
    && (InTake(w.pc) && !w.pc.TakeRead? ==> !w.ours)
    && (w.pc.ArmSpawn? || w.pc.TakeSet? ==> w.marker || lost)
    && (w.sentinel.Closed? || w.sentinel.ResetDone? ==> w.pc.SettleWait?)
    && (HasHold(w.pc) ==> w.hold.Some?)
  }

  lemma LooseArm(w: World, ok: bool, lost: bool)
    requires Loose(w, lost) && (w.pc.ArmLook? || w.pc.ArmWrite? || w.pc.ArmSpawn? || InRecover(w.pc))
    ensures Loose(AppNext(w, ok), LostNext(w, App(ok), lost))
  {
  }

  lemma LooseTake(w: World, ok: bool, lost: bool)
    requires Loose(w, lost) && (InSet(w.pc) || w.pc.KeepRead?)
    ensures Loose(AppNext(w, ok), LostNext(w, App(ok), lost))
  {
  }

  lemma LooseSettle(w: World, ok: bool, lost: bool)
    requires Loose(w, lost) && Enabled(w, App(ok)) && (w.pc.SettleClose? || w.pc.SettleWait? || w.pc.ReleaseDisarm?)
    ensures Loose(AppNext(w, ok), LostNext(w, App(ok), lost))
  {
  }

  lemma LooseReset(w: World, ok: bool, lost: bool)
    requires Loose(w, lost) && (w.pc.SettleSet? || w.pc.SettleRemove?)
    ensures Loose(AppNext(w, ok), LostNext(w, App(ok), lost))
  {
  }

  lemma LooseProcess(w: World, step: Step, lost: bool)
    requires Loose(w, lost) && Enabled(w, step)
    requires step.SentinelRuns? || step.SentinelKilled? || step.StaleRuns? || step.StaleKilled?
    ensures Loose(Next(w, step), LostNext(w, step, lost))
  {
  }

  lemma LooseCommand(w: World, step: Step, lost: bool)
    requires Loose(w, lost) && Enabled(w, step)
    requires step.Launch? || step.NewHold? || step.Keep? || step.Release?
          || step.Outside? || step.Crash? || step.Reboot?
    ensures Loose(Next(w, step), LostNext(w, step, lost))
  {
  }

  lemma LooseStep(w: World, step: Step, lost: bool)
    requires Loose(w, lost) && Enabled(w, step)
    ensures Loose(Next(w, step), LostNext(w, step, lost))
  {
    if step.App? {
      if w.pc.ArmLook? || w.pc.ArmWrite? || w.pc.ArmSpawn? || InRecover(w.pc) {
        LooseArm(w, step.ok, lost);
      } else if InSet(w.pc) || w.pc.KeepRead? {
        LooseTake(w, step.ok, lost);
      } else if w.pc.SettleSet? || w.pc.SettleRemove? {
        LooseReset(w, step.ok, lost);
      } else {
        LooseSettle(w, step.ok, lost);
      }
    } else if step.SentinelRuns? || step.SentinelKilled? || step.StaleRuns? || step.StaleKilled? {
      LooseProcess(w, step, lost);
    } else {
      LooseCommand(w, step, lost);
    }
  }

  lemma {:induction false} LooseRun(w: World, steps: seq<Step>, lost: bool)
    requires Loose(w, lost) && CanRun(w, steps)
    ensures Loose(Run(w, steps), Lost(w, steps, lost))
    decreases |steps|
  {
    if steps != [] {
      LooseStep(w, steps[0], lost);
      LooseRun(Next(w, steps[0]), steps[1..], LostNext(w, steps[0], lost));
    }
  }

  /** In any run at all, while sleep is off because of Tiles the marker is missing exactly when
      a process left from before has removed it and no hold has written it since. */
  lemma MarkerExactly(w: World, steps: seq<Step>)
    requires Initial(w) && CanRun(w, steps)
    ensures Run(w, steps).ours ==> Run(w, steps).disabled && (Run(w, steps).marker <==> !Lost(w, steps, false))
  {
    LooseRun(w, steps, false);
  }

  lemma Extend(w: World, steps: seq<Step>, step: Step) returns (more: seq<Step>)
    requires CanRun(w, steps) && Enabled(Run(w, steps), step)
    ensures CanRun(w, more) && Run(w, more) == Next(Run(w, steps), step)
  {
    RunMore(w, steps, step);
    more := steps + [step];
  }

  predicate Ready(v: World) {
    v.pc.Idle? && v.hold.None? && !v.disabled && v.path && !v.marker && v.sentinel.Gone?
  }

  lemma StartsToTake(w: World, steps: seq<Step>) returns (more: seq<Step>)
    requires CanRun(w, steps) && Ready(Run(w, steps))
    ensures CanRun(w, more)
    ensures Run(w, more) == Run(w, steps).(hold := Some(NEW_HOLD), pc := ArmLook(ToTake))
  {
    more := Extend(w, steps, NewHold);
    more := Extend(w, more, Keep);
    more := Extend(w, more, App(true));
  }

  lemma Arms(w: World, steps: seq<Step>) returns (more: seq<Step>)
    requires CanRun(w, steps)
    requires var v := Run(w, steps);
             v.pc == ArmLook(ToTake) && v.hold.Some? && v.path && !v.marker && v.sentinel.Gone?
    ensures CanRun(w, more)
    ensures Run(w, more) == Run(w, steps).(marker := true, sentinel := Waiting, pc := TakeSet)
  {
    more := Extend(w, steps, App(true));
    more := Extend(w, more, App(true));
    more := Extend(w, more, App(true));
  }

  lemma TurnsOff(w: World, steps: seq<Step>) returns (more: seq<Step>)
    requires CanRun(w, steps) && Run(w, steps).pc.TakeSet? && Run(w, steps).hold == Some(NEW_HOLD)
    ensures CanRun(w, more)
    ensures Run(w, more)
         == Run(w, steps).(hold := Some(HoldState(true, Some(Held), 1, Untouched)),
                           disabled := true, ours := true, pc := Idle)
  {
    more := Extend(w, steps, App(true));
  }

  /** A new hold that takes the setting, everything it asks for being granted. */
  lemma Taken(w: World, steps: seq<Step>) returns (more: seq<Step>)
    requires CanRun(w, steps) && Ready(Run(w, steps))
    ensures CanRun(w, more)
    ensures Run(w, more)
         == Run(w, steps).(hold := Some(HoldState(true, Some(Held), 1, Untouched)), marker := true,
                           disabled := true, ours := true, sentinel := Waiting)
  {
    more := StartsToTake(w, steps);
    more := Arms(w, more);
    more := TurnsOff(w, more);
  }

  /** A hold that took the setting in an app that then crashed, up to the next launch: its
      sentinel has turned sleep on, but has not removed the marker yet. */
  lemma LeftBehind(w: World) returns (steps: seq<Step>)
    requires Initial(w) && !w.disabled && !w.marker
    ensures CanRun(w, steps)
    ensures Run(w, steps) == w.(marker := false, path := true, stale := [ResetDone], pc := Idle)
  {
    steps := Extend(w, [], Launch(true));
    steps := Extend(w, steps, App(true));
    steps := Taken(w, steps);
    steps := Extend(w, steps, Crash);
    steps := Relaunched(w, steps);
  }

  lemma Relaunched(w: World, steps: seq<Step>) returns (more: seq<Step>)
    requires CanRun(w, steps)
    requires var v := Run(w, steps); v.stale == [Closed] && v.pc.Off? && v.marker
    ensures CanRun(w, more)
    ensures Run(w, more) == TurnedOn(Run(w, steps)).(marker := false, path := true, stale := [ResetDone], pc := Idle)
  {
    more := Extend(w, steps, StaleRuns(0, true));
    more := Extend(w, more, Launch(true));
    more := Extend(w, more, App(true));
    more := Extend(w, more, App(true));
    more := Extend(w, more, App(true));
  }

  /** Without the assumption on left processes, one of them can remove the marker of a
      new hold, and sleep is off with nothing that would turn it on after a crash. */
  lemma LateRemoval(w: World) returns (steps: seq<Step>)
    requires Initial(w) && !w.disabled && !w.marker
    ensures CanRun(w, steps) && !AllTimely(w, steps)
    ensures Run(w, steps).ours && Run(w, steps).disabled && !Run(w, steps).marker
    ensures Run(w, steps).pc.Idle? && Run(w, steps).path && Run(w, steps).sentinel.Waiting?
    ensures Run(w, steps).hold == Some(HoldState(true, Some(Held), 1, Untouched))
  {
    steps := LeftBehind(w);
    steps := Taken(w, steps);
    steps := Extend(w, steps, StaleRuns(0, true));
    if AllTimely(w, steps) {
      MarkerCovers(w, steps);
    }
  }

  ghost predicate AnyWrite(w: World, steps: seq<Step>)
    requires CanRun(w, steps)
    decreases |steps|
  {
    steps != [] && (WritesMarker(w, steps[0]) || AnyWrite(Next(w, steps[0]), steps[1..]))
  }

  /** A marker that is gone stays away until a hold arms. */
  lemma {:induction false} AwayUntilArmed(w: World, steps: seq<Step>)
    requires !w.marker && CanRun(w, steps) && !AnyWrite(w, steps)
    ensures !Run(w, steps).marker
    decreases |steps|
  {
    if steps != [] {
      AwayUntilArmed(Next(w, steps[0]), steps[1..]);
    }
  }

  lemma KeptUntilWrite(w: World, steps: seq<Step>) returns (more: seq<Step>)
    requires CanRun(w, steps)
    requires var v := Run(w, steps);
             && v.pc.Idle? && v.disabled && v.path && !v.marker
             && v.hold.Some? && v.hold.value.owned && v.hold.value.state == Some(Held)
    ensures CanRun(w, more) && Run(w, more) == Run(w, steps).(pc := ArmWrite(ToKeep))
  {
    more := Extend(w, steps, Keep);
    more := Extend(w, more, App(true));
    more := Extend(w, more, App(true));
  }

  /** It is back once a hold that owns the setting is kept. */
  lemma BackWhenKept(w: World, steps: seq<Step>) returns (more: seq<Step>)
    requires CanRun(w, steps)
    requires var v := Run(w, steps);
             && v.pc.Idle? && v.disabled && v.path && !v.marker && Alive(v.sentinel)
             && v.hold.Some? && v.hold.value.owned && v.hold.value.state == Some(Held)
    ensures CanRun(w, more) && Run(w, more) == Run(w, steps).(marker := true)
  {
    more := KeptUntilWrite(w, steps);
    more := Extend(w, more, App(true));
    more := Extend(w, more, App(true));
  }
}
