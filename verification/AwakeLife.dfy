/** How long a Stay Awake session lives, told from the events alone. */
module AwakeLife {
  import opened Prelude
  import opened AwakeClock
  import opened AwakeHeld

  // ---------------------------------------------------------------- what the events say

  /** The session runs unless the last thing done to it was a pause. */
  predicate RunsAfter(events: seq<Event>) {
    var ops := OpsOf(events);
    ops == [] || ops[|ops| - 1].Resume?
  }

  function LastPass(events: seq<Event>): (k: Option<nat>)
    ensures k.Some? ==> k.value < |events| && events[k.value].Reconcile?
    ensures forall i :: (if k.Some? then k.value + 1 else 0) <= i < |events| ==> !events[i].Reconcile?
  {
    if events == [] then None
    else if events[|events| - 1].Reconcile? then Some(|events| - 1)
    else LastPass(events[..|events| - 1])
  }

  /** A child is there if the session ran at the last pass. */
  predicate ChildAfter(events: seq<Event>) {
    LastPass(events).Some? && RunsAfter(events[..LastPass(events).value])
  }

  function LengthOf(seconds: u64): nat {
    if seconds * 1000 <= MAX then seconds * 1000 else MAX
  }

  /** The event ends the session: it is stopped, its child ended, the power is too low, it has
      run its length, or it runs and no child can be had. */
  predicate Ends(start: Event, events: seq<Event>, k: nat)
    requires start.Start? && k < |events|
  {
    var before := events[..k];
    match events[k]
    case Stop => true
    case Shutdown => true
    case Reconcile(f) =>
      || (ChildAfter(before) && f.ended)
      || !(f.power.pluggedIn || (f.power.percent.Some? && f.power.percent.value > 10))
      || (start.seconds.Some? && Ticks(start.now, OpsOf(before), f.now) >= LengthOf(start.seconds.value))
      || (RunsAfter(before) && !ChildAfter(before) && !f.spawns)
    case _ => false
  }

  predicate NothingEnds(start: Event, events: seq<Event>)
    requires start.Start?
  {
    forall k :: 0 <= k < |events| ==> !Ends(start, events, k)
  }

  // ---------------------------------------------------------------- one more event

  lemma {:induction false} RunLast(h: State, offered: bool, events: seq<Event>, e: Event)
    ensures Run(h, offered, events + [e]) == Step(Run(h, offered, events), offered, e)
    decreases |events|
  {
    var all := events + [e];
    if events == [] {
      assert all[1..] == [];
    } else {
      assert all[1..] == events[1..] + [e];
      RunLast(Step(h, offered, events[0]), offered, events[1..], e);
    }
  }

  function OpOf(e: Event): seq<Op> {
    if e.PauseAt? then [Op.Pause(e.now)]
    else if e.ResumeAt? && e.power.AllowsStayAwake() then [Op.Resume(e.now)]
    else []
  }

  lemma {:induction false} OpsLast(events: seq<Event>, e: Event)
    ensures OpsOf(events + [e]) == OpsOf(events) + OpOf(e)
    decreases |events|
  {
    var all := events + [e];
    if events == [] {
      assert all[1..] == [];
    } else {
      assert all[1..] == events[1..] + [e];
      OpsLast(events[1..], e);
    }
  }

  lemma {:induction false} InOrderLast(from: u64, events: seq<Event>, e: Event, to: u64)
    requires InOrder(from, events + [e], to)
    ensures InOrder(from, events, to)
    ensures e.Reconcile? ==> InOrder(from, events, e.findings.now)
    decreases |events|
  {
    var all := events + [e];
    if events == [] {
      assert all[1..] == [];
    } else {
      assert all[1..] == events[1..] + [e];
      InOrderLast(TimeOf(events[0], from), events[1..], e, to);
    }
  }

  lemma AfterLast(events: seq<Event>, e: Event)
    ensures RunsAfter(events + [e]) == if e.PauseAt? then false
                                       else if e.ResumeAt? && e.power.AllowsStayAwake() then true
                                       else RunsAfter(events)
    ensures ChildAfter(events + [e]) == if e.Reconcile? then RunsAfter(events) else ChildAfter(events)
  {
    OpsLast(events, e);
    var all := events + [e];
    assert all[..|events|] == events;
    if !e.Reconcile? && LastPass(events).Some? {
      assert all[..LastPass(events).value] == events[..LastPass(events).value];
    }
  }

  lemma NothingEndsLast(start: Event, events: seq<Event>, e: Event)
    requires start.Start?
    ensures NothingEnds(start, events + [e]) <==>
              NothingEnds(start, events) && !Ends(start, events + [e], |events|)
  {
    var all := events + [e];
    forall k | 0 <= k < |events| ensures Ends(start, all, k) <==> Ends(start, events, k) {
      assert all[..k] == events[..k];
    }
    if NothingEnds(start, all) {
      forall k | 0 <= k < |events| ensures !Ends(start, events, k) {
        assert !Ends(start, all, k);
      }
    }
  }

  // ---------------------------------------------------------------- the clock of the session

  /** What the events say of a session that lives, and of its child. */
  ghost predicate Told(h: State, start: Event, events: seq<Event>)
    requires start.Start?
  {
    && h.session.Some?
    && (Running(h) <==> RunsAfter(events))
    && (h.child.Some? <==> ChildAfter(events))
  }

  lemma ClockTold(h: State, offered: bool, start: Event, events: seq<Event>, now: u64)
    requires Starts(start) && NoStart(events) && InOrder(start.now, events, now)
    requires Run(Step(h, offered, start), offered, events).session.Some?
    ensures var s := Run(Step(h, offered, start), offered, events).session.value;
            && s.Ran(now) == Ticks(start.now, OpsOf(events), now)
            && (s.length.Some? <==> start.seconds.Some?)
            && (s.length.Some? ==> s.length.value == LengthOf(start.seconds.value))
  {
    OpsInOrder(start.now, events, now);
    SessionKept(Step(h, offered, start), offered, events);
    RanExactly(start.seconds, start.now, OpsOf(events), now);
  }

  lemma PassTold(h: State, offered: bool, start: Event, events: seq<Event>, f: Findings)
    requires start.Start? && Told(h, start, events)
    requires h.session.value.length.Some? <==> start.seconds.Some?
    requires start.seconds.Some? ==> h.session.value.length.value == LengthOf(start.seconds.value)
    requires h.session.value.Ran(f.now) == Ticks(start.now, OpsOf(events), f.now)
    ensures var next := Step(h, offered, Reconcile(f));
            if Ends(start, events + [Reconcile(f)], |events|) then next.session.None?
            else Told(next, start, events + [Reconcile(f)])
  {
    assert (events + [Reconcile(f)])[..|events|] == events;
    PassMeaning(h, offered, f);
    AfterLast(events, Reconcile(f));
  }

  lemma OtherTold(h: State, offered: bool, start: Event, events: seq<Event>, e: Event)
    requires start.Start? && Told(h, start, events) && !Starts(e) && !e.Reconcile?
    ensures var next := Step(h, offered, e);
            if Ends(start, events + [e], |events|) then next.session.None? else Told(next, start, events + [e])
  {
    AfterLast(events, e);
  }

  // ---------------------------------------------------------------- main result

  /** Through any events in order, a started session still lives exactly when none of them
      ended it. While it lives it runs unless it was paused last, and it has a child if it ran
      at the last pass. */
  lemma {:induction false} LivesExactly(h: State, offered: bool, start: Event, events: seq<Event>, now: u64)
    requires Starts(start) && NoStart(events) && InOrder(start.now, events, now)
    ensures var after := Run(Step(h, offered, start), offered, events);
            && (after.session.Some? <==> NothingEnds(start, events))
            && (after.session.Some? ==> Told(after, start, events))
    decreases |events|
  {
    if events != [] {
      var init, e := events[..|events| - 1], events[|events| - 1];
      var first := Step(h, offered, start);
      var before := Run(first, offered, init);
      assert events == init + [e];
      assert NoStart(init) && !Starts(e);
      InOrderLast(start.now, init, e, now);
      LivesExactly(h, offered, start, init, now);
      RunLast(first, offered, init, e);
      NothingEndsLast(start, init, e);
      if before.session.Some? {
        if e.Reconcile? {
          ClockTold(h, offered, start, init, e.findings.now);
          PassTold(before, offered, start, init, e.findings);
        } else {
          OtherTold(before, offered, start, init, e);
        }
      }
    }
  }
}
