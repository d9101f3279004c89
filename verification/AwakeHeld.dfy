/** Stay Awake: the caffeinate child, the lid hold and the session, brought in line by reconcile. */
module AwakeHeld {
  import opened Prelude
  import opened AwakeClock

  /** A running caffeinate, the seconds it was given, and the time it was given them at. */
  datatype Child = Child(seconds: Option<u64>, at: u64)

  datatype Power = Power(pluggedIn: bool, percent: Option<nat>) {
    predicate AllowsStayAwake() {
      pluggedIn || (percent.Some? && percent.value > 10)
    }
  }

  /** What a pass finds. `ended` says that the child is over, or cannot be asked. */
  datatype Findings = Findings(power: Power, now: u64, ended: bool, spawns: bool, lidHeld: bool, closed: bool,
                               external: bool)

  /** A lid hold is known by a number. `holds` counts those made so far, `blankings` how
      often the screen was turned off. */
  datatype State = State(
    child: Option<Child>,
    lid: Option<nat>,
    blanked: bool,
    session: Option<Session>,
    holds: nat,
    blankings: nat)

  const IDLE := State(None, None, false, None, 0, 0)

  predicate Running(h: State) {
    h.session.Some? && h.session.value.Running()
  }

  // ---------------------------------------------------------------- a pass, in parts

  function Reaped(h: State, f: Findings): State {
    if h.child.Some? && f.ended then h.(child := None, lid := None, session := None) else h
  }

  function Checked(h: State, f: Findings): State {
    if h.session.Some? && (!f.power.AllowsStayAwake() || h.session.value.Expired(f.now)) then h.(session := None) else h
  }

  function ChildDue(h: State, f: Findings): State {
    if Running(h) && h.child.None? then
      if f.spawns then h.(child := Some(Child(h.session.value.Seconds(f.now), f.now))) else h.(session := None)
    else if !Running(h) && h.child.Some? then h.(child := None, lid := None)
    else h
  }

  function LidDue(h: State, offered: bool): State {
    var due := h.child.Some? && offered;
    if due && h.lid.None? then h.(lid := Some(h.holds), holds := h.holds + 1)
    else if !due && h.lid.Some? then h.(lid := None)
    else h
  }

  function ScreenDue(h: State, f: Findings): State {
    var blank := h.lid.Some? && f.lidHeld && f.closed && !f.external;
    h.(blanked := blank, blankings := if blank && !h.blanked then h.blankings + 1 else h.blankings)
  }

  function Reconciled(h: State, offered: bool, f: Findings): State {
    ScreenDue(LidDue(ChildDue(Checked(Reaped(h, f), f), f), offered), f)
  }

  // ---------------------------------------------------------------- what a pass comes to

  /** The session outlives the pass. */
  predicate LivesOn(s: Session, hasChild: bool, f: Findings) {
    && !(hasChild && f.ended)
    && (f.power.pluggedIn || (f.power.percent.Some? && f.power.percent.value > 10))
    && (s.length.Some? ==> s.Ran(f.now) < s.length.value)
    && (s.started.None? || hasChild || f.spawns)
  }

  lemma ChildPart(h: State, f: Findings)
    ensures var c := ChildDue(Checked(Reaped(h, f), f), f);
            && c.session == (if h.session.Some? && LivesOn(h.session.value, h.child.Some?, f) then h.session else None)
            && c.child == (if !Running(c) then None
                           else if h.child.Some? then h.child
                           else Some(Child(c.session.value.Seconds(f.now), f.now)))
            && c.holds == h.holds && c.blanked == h.blanked && c.blankings == h.blankings
            && (c.child.Some? ==> c.lid == h.lid)
  {
  }

  lemma LidPart(c: State, offered: bool, f: Findings)
    ensures var t := ScreenDue(LidDue(c, offered), f);
            && t.session == c.session && t.child == c.child
            && t.lid == (if c.child.None? || !offered then None else if c.lid.Some? then c.lid else Some(c.holds))
            && t.holds == c.holds + (if t.lid.Some? && c.lid.None? then 1 else 0)
            && (t.blanked <==> t.lid.Some? && f.lidHeld && f.closed && !f.external)
            && t.blankings == c.blankings + (if t.blanked && !c.blanked then 1 else 0)
  {
  }

  /** The session goes on or is dropped. A child is there for a running session, the old one
      if there is one, and the lid is held for a child, still under the old hold if there is
      one. The screen goes off once per time it should. */
  lemma PassMeaning(h: State, offered: bool, f: Findings)
    ensures var t := Reconciled(h, offered, f);
            && t.session == (if h.session.Some? && LivesOn(h.session.value, h.child.Some?, f) then h.session else None)
            && t.child == (if !Running(t) then None
                           else if h.child.Some? then h.child
                           else Some(Child(t.session.value.Seconds(f.now), f.now)))
            && t.lid == (if t.child.None? || !offered then None else if h.lid.Some? then h.lid else Some(h.holds))
            && t.holds == h.holds + (if t.lid.Some? && h.lid.None? then 1 else 0)
            && (t.blanked <==> t.lid.Some? && f.lidHeld && f.closed && !f.external)
            && t.blankings == h.blankings + (if t.blanked && !h.blanked then 1 else 0)
  {
    ChildPart(h, f);
    LidPart(ChildDue(Checked(Reaped(h, f), f), f), offered, f);
  }

  // ---------------------------------------------------------------- the object

  class Held {
    const offered: bool
    var child: Option<Child>
    var lid: Option<nat>
    var blanked: bool
    var session: Option<Session>
    var holds: nat
    var blankings: nat

    constructor (offered: bool)
      ensures this.offered == offered && Contents() == IDLE
    {
      this.offered := offered;
      child, lid, blanked, session, holds, blankings := None, None, false, None, 0, 0;
    }

    function Contents(): State
      reads this
    {
      State(child, lid, blanked, session, holds, blankings)
    }

    /** Kills the child and releases the lid hold. */
    method Release()
      modifies `child, `lid
      ensures child == None && lid == None
    {
      if child.Some? {
        child := None;
      }
      if lid.Some? {
        lid := None;
      }
    }

    /** The first half of a pass: whether there is still a session, and a child for it. */
    method Provide(f: Findings)
      modifies `child, `lid, `session
      ensures Contents() == ChildDue(Checked(Reaped(old(Contents()), f), f), f)
    {
      if child.Some? && f.ended {
        Release();
        session := None;
      }
      if !f.power.AllowsStayAwake() {
        session := None;
      }
      if session.Some? && session.value.Expired(f.now) {
        session := None;
      }
      assert Contents() == Checked(Reaped(old(Contents()), f), f);
      var running := session.Some? && session.value.Running();
      if running && child.None? {
        if f.spawns {
          child := Some(Child(session.value.Seconds(f.now), f.now));
        } else {
          session := None;
        }
      } else if !running && child.Some? {
        Release();
      }
    }

    /** The second half: the lid hold, and the screen. */
    method Cover(f: Findings)
      modifies `lid, `holds, `blanked, `blankings
      ensures Contents() == ScreenDue(LidDue(old(Contents()), offered), f)
    {
      var due := child.Some? && offered;
      if due && lid.None? {
        lid, holds := Some(holds), holds + 1;
      } else if !due && lid.Some? {
        lid := None;
      }
      var blank := lid.Some? && f.lidHeld && f.closed && !f.external;
      if blank && !blanked {
        blankings := blankings + 1;
      }
      blanked := blank;
    }

    method Reconcile(f: Findings)
      modifies this
      ensures Contents() == Step(old(Contents()), offered, Event.Reconcile(f))
      ensures old(session).None? ==> session == None
      ensures old(session).Some? ==>
                if && !(old(child).Some? && f.ended)
                   && (f.power.pluggedIn || (f.power.percent.Some? && f.power.percent.value > 10))
                   && (old(session).value.length.Some? ==>
                         old(session).value.Ran(f.now) < old(session).value.length.value)
                   && (old(session).value.started.None? || old(child).Some? || f.spawns)
                then session == old(session) else session == None
      ensures child == if session.None? || session.value.started.None? then None
                       else if old(child).Some? then old(child)
                       else Some(Child(session.value.Seconds(f.now), f.now))
      ensures lid == if child.None? || !offered then None else if old(lid).Some? then old(lid) else Some(old(holds))
      ensures holds == old(holds) + (if lid.Some? && old(lid).None? then 1 else 0)
      ensures blanked <==> lid.Some? && f.lidHeld && f.closed && !f.external
      ensures blankings == old(blankings) + (if blanked && !old(blanked) then 1 else 0)
    {
      Provide(f);
      Cover(f);
      PassMeaning(old(Contents()), offered, f);
    }

    /** Ends the old caffeinate, whose seconds are the old session's. The lid hold carries over. */
    method Start(seconds: Option<u64>, now: u64, power: Power) returns (ok: bool)
      modifies `child, `session
      ensures ok <==> power.pluggedIn || (power.percent.Some? && power.percent.value > 10)
      ensures Contents() == Step(old(Contents()), offered, Event.Start(seconds, now, power))
      ensures ok ==> child == None && session.Some? && session.value.elapsed == 0 && session.value.started == Some(now)
      ensures ok ==> session.value.length == match seconds
                                             case None => None
                                             case Some(n) => Some(if n * 1000 <= MAX then n * 1000 else MAX)
      ensures !ok ==> child == old(child) && session == old(session)
    {
      if !power.AllowsStayAwake() {
        return false;
      }
      if child.Some? {
        child := None;
      }
      session := Some(Session(if seconds.Some? then Some(SatMul(seconds.value, 1000)) else None, 0, Some(now)));
      ok := true;
    }

    method Stop()
      modifies `session
      ensures Contents() == Step(old(Contents()), offered, Event.Stop) && session == None
    {
      session := None;
    }

    method Pause(now: u64)
      modifies `session
      ensures Contents() == Step(old(Contents()), offered, PauseAt(now))
      ensures session == if old(session).Some? && old(session).value.started.Some? then
                           Some(Session(old(session).value.length, old(session).value.Ran(now), None))
                         else old(session)
    {
      if session.Some? && session.value.started.Some? {
        var at := session.value.started.value;
        session := Some(Session(session.value.length, SatAdd(session.value.elapsed, SatSub(now, at)), None));
      }
    }

    method Resume(now: u64, power: Power) returns (ok: bool)
      modifies `session
      ensures ok <==> power.pluggedIn || (power.percent.Some? && power.percent.value > 10)
      ensures Contents() == Step(old(Contents()), offered, ResumeAt(now, power))
      ensures session == if ok && old(session).Some? && old(session).value.started.None? then
                           Some(Session(old(session).value.length, old(session).value.elapsed, Some(now)))
                         else old(session)
    {
      if !power.AllowsStayAwake() {
        return false;
      }
      if session.Some? && session.value.started.None? {
        session := Some(session.value.(started := Some(now)));
      }
      ok := true;
    }

    method Shutdown()
      modifies this
      ensures Contents() == Step(old(Contents()), offered, Event.Shutdown)
      ensures child == None && lid == None && session == None
      ensures holds == old(holds) && blanked == old(blanked) && blankings == old(blankings)
    {
      Release();
      session := None;
    }
  }

  // ---------------------------------------------------------------- runs

  datatype Event =
    | Reconcile(findings: Findings)
    | Start(seconds: Option<u64>, now: u64, power: Power)
    | Stop
    | PauseAt(now: u64)
    | ResumeAt(now: u64, power: Power)
    | Shutdown

  function Step(h: State, offered: bool, e: Event): State {
    match e
    case Reconcile(f) => Reconciled(h, offered, f)
    case Start(seconds, now, power) =>
      if power.AllowsStayAwake() then h.(child := None, session := Some(Fresh(seconds, now))) else h
    case Stop => h.(session := None)
    case PauseAt(now) => if h.session.Some? then h.(session := Some(h.session.value.Paused(now))) else h
    case ResumeAt(now, power) =>
      if power.AllowsStayAwake() && h.session.Some? then h.(session := Some(h.session.value.Resumed(now))) else h
    case Shutdown => h.(child := None, lid := None, session := None)
  }

  function Run(h: State, offered: bool, events: seq<Event>): State
    decreases |events|
  {
    if events == [] then h else Run(Step(h, offered, events[0]), offered, events[1..])
  }

  predicate Starts(e: Event) {
    e.Start? && e.power.AllowsStayAwake()
  }

  predicate NoStart(events: seq<Event>) {
    forall i :: 0 <= i < |events| ==> !Starts(events[i])
  }

  lemma NoStartRest(events: seq<Event>)
    requires NoStart(events) && events != []
    ensures !Starts(events[0]) && NoStart(events[1..])
  {
    forall i | 0 <= i < |events[1..]| ensures !Starts(events[1..][i]) {
      assert events[1..][i] == events[i + 1];
    }
  }

  /** A session that is gone stays gone until somebody starts one, whatever happens to the
      power in between, and then nothing is held from the next pass on. */
  lemma {:induction false} GoneForGood(h: State, offered: bool, events: seq<Event>)
    requires h.session.None? && NoStart(events)
    ensures Run(h, offered, events).session.None?
    ensures (exists i :: 0 <= i < |events| && events[i].Reconcile?) ==>
              Run(h, offered, events).child.None? && Run(h, offered, events).lid.None?
    decreases |events|
  {
    if events != [] {
      var next := Step(h, offered, events[0]);
      NoStartRest(events);
      GoneForGood(next, offered, events[1..]);
      if events[0].Reconcile? {
        NothingHeld(next, offered, events[1..]);
      } else if i :| 0 <= i < |events| && events[i].Reconcile? {
        assert events[1..][i - 1].Reconcile?;
      }
    }
  }

  lemma {:induction false} NothingHeld(h: State, offered: bool, events: seq<Event>)
    requires h.session.None? && h.child.None? && h.lid.None? && NoStart(events)
    ensures Run(h, offered, events).child.None? && Run(h, offered, events).lid.None?
    decreases |events|
  {
    if events != [] {
      NoStartRest(events);
      NothingHeld(Step(h, offered, events[0]), offered, events[1..]);
    }
  }

  /** The pauses and resumes that reach a session. */
  function OpsOf(events: seq<Event>): seq<Op>
    decreases |events|
  {
    if events == [] then []
    else
      var rest := OpsOf(events[1..]);
      if events[0].PauseAt? then [Op.Pause(events[0].now)] + rest
      else if events[0].ResumeAt? && events[0].power.AllowsStayAwake() then [Op.Resume(events[0].now)] + rest
      else rest
  }

  lemma {:induction false} ApplyAllFront(s: Session, op: Op, ops: seq<Op>)
    ensures ApplyAll(s, [op] + ops) == ApplyAll(Apply(s, op), ops)
  {
    if ops == [] {
      assert [op][..0] == [];
    } else {
      var all := [op] + ops;
      assert all[..|all| - 1] == [op] + ops[..|ops| - 1];
      ApplyAllFront(s, op, ops[..|ops| - 1]);
    }
  }

  /** As long as a session lives, nothing but pauses and resumes touched its clock. */
  lemma {:induction false} SessionKept(h: State, offered: bool, events: seq<Event>)
    requires h.session.Some? && NoStart(events) && Run(h, offered, events).session.Some?
    ensures Run(h, offered, events).session.value == ApplyAll(h.session.value, OpsOf(events))
    decreases |events|
  {
    if events != [] {
      var next := Step(h, offered, events[0]);
      NoStartRest(events);
      if next.session.None? {
        GoneForGood(next, offered, events[1..]);
      }
      SessionKept(next, offered, events[1..]);
      if events[0].PauseAt? {
        ApplyAllFront(h.session.value, Op.Pause(events[0].now), OpsOf(events[1..]));
      } else if events[0].ResumeAt? && events[0].power.AllowsStayAwake() {
        ApplyAllFront(h.session.value, Op.Resume(events[0].now), OpsOf(events[1..]));
      }
    }
  }

  /** From a start on, through passes, pauses and resumes, the clock of a session that still
      lives shows exactly the milliseconds it ran in. */
  lemma ClockExact(h: State, offered: bool, start: Event, events: seq<Event>, now: u64)
    requires Starts(start) && NoStart(events) && Ordered(start.now, OpsOf(events), now)
    requires Run(Step(h, offered, start), offered, events).session.Some?
    ensures Run(Step(h, offered, start), offered, events).session.value.Ran(now) == Ticks(start.now, OpsOf(events), now)
  {
    SessionKept(Step(h, offered, start), offered, events);
    RanExactly(start.seconds, start.now, OpsOf(events), now);
  }

  lemma RunTwo(h: State, offered: bool, a: Event, b: Event)
    ensures Run(h, offered, [a, b]) == Step(Step(h, offered, a), offered, b)
  {
    assert [a, b][1..] == [b];
    var next := Step(h, offered, a);
    assert Run(next, offered, [b]) == Step(next, offered, b);
  }

  /** A new session takes over the lid hold of the old one: sleep is not turned on in between. */
  lemma HoldCarriesOver(h: State, offered: bool, start: Event, f: Findings)
    requires Starts(start) && h.lid.Some? && offered
    requires f.power.AllowsStayAwake() && f.spawns && !Fresh(start.seconds, start.now).Expired(f.now)
    ensures var after := Run(h, offered, [start, Reconcile(f)]);
            after.lid == h.lid && after.holds == h.holds && after.child.Some?
  {
    RunTwo(h, offered, start, Reconcile(f));
  }

  // ---------------------------------------------------------------- whether the child lasts long enough

  /** The last millisecond a timed child is given. */
  function Deadline(c: Child): int
    requires c.seconds.Some?
  {
    c.at + 1000 * c.seconds.value
  }

  function TimeOf(e: Event, before: u64): u64 {
    match e
    case Reconcile(f) => f.now
    case Start(_, now, _) => now
    case PauseAt(now) => now
    case ResumeAt(now, _) => now
    case Stop => before
    case Shutdown => before
  }

  /** The times the events carry do not go back, from `from` up to `to`. */
  predicate InOrder(from: u64, events: seq<Event>, to: u64)
    decreases |events|
  {
    if events == [] then from <= to
    else from <= TimeOf(events[0], from) && InOrder(TimeOf(events[0], from), events[1..], to)
  }

  lemma {:induction false} OpsInOrder(from: u64, events: seq<Event>, to: u64)
    requires InOrder(from, events, to)
    ensures Ordered(from, OpsOf(events), to)
    decreases |events|
  {
    if events != [] {
      OpsInOrder(TimeOf(events[0], from), events[1..], to);
    }
  }

  /** No run of a session began before it could have banked what it has. */
  predicate KeepsTime(h: State, now: u64) {
    h.session.Some? ==>
      var s := h.session.value;
      s.elapsed <= now && (s.Running() ==> s.elapsed <= s.started.value <= now)
  }

  lemma {:induction false} TimeKept(h: State, offered: bool, from: u64, events: seq<Event>, to: u64)
    requires KeepsTime(h, from) && InOrder(from, events, to)
    ensures KeepsTime(Run(h, offered, events), to)
    decreases |events|
  {
    if events != [] {
      TimeKept(Step(h, offered, events[0]), offered, TimeOf(events[0], from), events[1..], to);
    }
  }

  /** A child is given the time its session has left, rounded up to whole seconds. */
  lemma ChildGiven(h: State, offered: bool, f: Findings)
    requires h.child.None? && Reconciled(h, offered, f).child.Some?
    ensures Reconciled(h, offered, f).session == h.session && Running(h)
    ensures var s := h.session.value;
            var c := Reconciled(h, offered, f).child.value;
            && !s.Expired(f.now) && c.at == f.now
            && if s.length.None? then c.seconds.None?
               else c.seconds.Some? && 0 <= 1000 * c.seconds.value - s.Left(f.now).value < 1000
  {
    if h.session.value.length.Some? {
      SecondsCover(h.session.value, f.now);
    }
  }

  /** In every run, a child that is kept lasts to the end of its session exactly when the
      session was paused, since the child was spawned, for no longer than the part of a second
      by which the child's time was rounded up. */
  lemma ChildCoversExactly(offered: bool, before: seq<Event>, f: Findings, after: seq<Event>, now: u64)
    requires InOrder(0, before, f.now) && InOrder(f.now, after, now) && NoStart(after)
    requires var h := Run(IDLE, offered, before);
             && h.child.None? && Step(h, offered, Reconcile(f)).child.Some? && h.session.value.length.Some?
    requires var spawned := Step(Run(IDLE, offered, before), offered, Reconcile(f));
             var h := Run(spawned, offered, after);
             h.child == spawned.child && h.session.Some?
    ensures var spawned := Step(Run(IDLE, offered, before), offered, Reconcile(f));
            var child := spawned.child.value;
            var session := Run(spawned, offered, after).session.value;
            && child.at == f.now && child.seconds.Some? && session.length.Some?
            && var spare := 1000 * child.seconds.value - spawned.session.value.Left(child.at).value;
            && 0 <= spare < 1000
            && (Deadline(child) >= End(session, now) <==> Idle(child.at, OpsOf(after), now) <= spare)
  {
    var h := Run(IDLE, offered, before);
    var spawned := Step(h, offered, Reconcile(f));
    TimeKept(IDLE, offered, 0, before, f.now);
    ChildGiven(h, offered, f);
    SessionKept(spawned, offered, after);
    OpsInOrder(f.now, after, now);
    RanSince(h.session.value, f.now, OpsOf(after), now);
    TicksAndIdle(f.now, OpsOf(after), now);
  }

  /** The child of a running session lasts to its end. */
  predicate Covered(h: State) {
    h.child.Some? && Running(h) ==>
      var s, c := h.session.value, h.child.value;
      if s.length.None? then c.seconds.None?
      else c.seconds.Some? && s.started.value + s.length.value - s.elapsed <= Deadline(c)
  }

  predicate Resumes(e: Event) {
    e.ResumeAt? && e.power.AllowsStayAwake()
  }

  /** A pass comes before each resume. */
  predicate PassFirst(events: seq<Event>) {
    forall j :: 0 <= j < |events| && Resumes(events[j]) ==> exists k :: 0 <= k < j && events[k].Reconcile?
  }

  /** A pass comes between each pause and each resume after it. */
  predicate PausesSeen(events: seq<Event>) {
    forall i, j :: 0 <= i < j < |events| && events[i].PauseAt? && Resumes(events[j]) ==>
      exists k :: i < k < j && events[k].Reconcile?
  }

  lemma PausesSeenRest(events: seq<Event>)
    requires PausesSeen(events) && events != []
    ensures PausesSeen(events[1..])
    ensures events[0].PauseAt? ==> PassFirst(events[1..])
    ensures PassFirst(events) && !events[0].Reconcile? ==> !Resumes(events[0]) && PassFirst(events[1..])
  {
    var rest := events[1..];
    forall i, j | 0 <= i < j < |rest| && rest[i].PauseAt? && Resumes(rest[j])
      ensures exists k :: i < k < j && rest[k].Reconcile?
    {
      assert events[i + 1].PauseAt? && Resumes(events[j + 1]);
      var k :| i + 1 < k < j + 1 && events[k].Reconcile?;
      assert rest[k - 1].Reconcile?;
    }
    if events[0].PauseAt? || (PassFirst(events) && !events[0].Reconcile?) {
      forall j | 0 <= j < |rest| && Resumes(rest[j]) ensures exists k :: 0 <= k < j && rest[k].Reconcile? {
        assert Resumes(events[j + 1]);
        var k :| 0 < k < j + 1 && events[k].Reconcile?;
        assert rest[k - 1].Reconcile?;
      }
    }
  }

  lemma CoveredNext(h: State, offered: bool, e: Event, now: u64)
    requires Covered(h) && KeepsTime(h, now) && now <= TimeOf(e, now)
    requires h.child.Some? && h.session.Some? && !Running(h) ==> !Resumes(e)
    ensures Covered(Step(h, offered, e))
  {
    if e.Reconcile? && h.child.None? && Step(h, offered, e).child.Some? {
      ChildGiven(h, offered, e.findings);
    }
  }

  /** If a pass sees each pause before the session is resumed, then in every reachable state
      the child of a running session lasts to its end. */
  lemma AlwaysCovered(offered: bool, events: seq<Event>, now: u64)
    requires InOrder(0, events, now) && PausesSeen(events)
    ensures Covered(Run(IDLE, offered, events))
  {
    CoveredFrom(IDLE, offered, 0, events, now);
  }

  lemma {:induction false} CoveredFrom(h: State, offered: bool, from: u64, events: seq<Event>, to: u64)
    requires Covered(h) && KeepsTime(h, from) && InOrder(from, events, to) && PausesSeen(events)
    requires h.child.Some? && h.session.Some? && !Running(h) ==> PassFirst(events)
    ensures Covered(Run(h, offered, events))
    decreases |events|
  {
    if events != [] {
      var e := events[0];
      var next := Step(h, offered, e);
      PausesSeenRest(events);
      assert PassFirst(events) ==> !Resumes(events[0]);
      CoveredNext(h, offered, e, from);
      TimeKeptNext(h, offered, e, from);
      if next.child.Some? && next.session.Some? && !Running(next) {
        assert e.PauseAt? || !Running(h);
      }
      CoveredFrom(next, offered, TimeOf(e, from), events[1..], to);
    }
  }

  lemma TimeKeptNext(h: State, offered: bool, e: Event, from: u64)
    requires KeepsTime(h, from) && from <= TimeOf(e, from)
    ensures KeepsTime(Step(h, offered, e), TimeOf(e, from))
  {
  }

  /** A pause and a resume that no pass sees leave the child as it is, while the end of the
      session moves by the time the pause took. */
  lemma UnseenPause(h: State, offered: bool, p: u64, r: u64, power: Power)
    requires h.child.Some? && Running(h) && h.session.value.length.Some? && power.AllowsStayAwake()
    requires h.session.value.started.value <= p <= r && !h.session.value.Expired(p)
    requires h.session.value.Until().value + (r - p) < MAX
    ensures var after := Run(h, offered, [PauseAt(p), ResumeAt(r, power)]);
            && after.child == h.child
            && Running(after) && after.session.value.Until() == Some(h.session.value.Until().value + (r - p))
  {
    RunTwo(h, offered, PauseAt(p), ResumeAt(r, power));
  }
}
