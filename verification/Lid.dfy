/** The closed-lid hold as the app has it: an object over the system setting and the
    marker file. Every method is a run of the step machine. */
module LidHold {
  import opened Prelude
  import opened LidMachine

  /** What the commands a method runs come to. */
  datatype Luck = Luck(
    writes: bool,
    spawns: bool,
    sets: bool,
    resets: bool,
    removes: bool,
    sentinel: Fate)

  /** How a sentinel ends after its pipe closed. */
  datatype Fate = DiedBefore | WasRefused | KeptMarker | Finished

  class Mac {
    var disabled: bool
    var marker: bool

    /** `pmset`: a command that fails changes nothing. */
    method Set(on: bool, granted: bool) returns (ok: bool)
      modifies `disabled
      ensures ok == granted
      ensures disabled == if granted then on else old(disabled)
    {
      if granted {
        disabled := on;
      }
      ok := granted;
    }
  }

  class Hold {
    const mac: Mac
    /** Whether the app knows where the marker belongs. */
    const path: bool
    var owned: bool
    var state: Option<Lid>
    var sentinel: Process

    ghost var w: World

    /** The object and the Mac are where the machine is. */
    ghost predicate Matches()
      reads this, mac
    {
      && w.disabled == mac.disabled && w.marker == mac.marker && w.path == path && w.sentinel == sentinel
      && w.hold.Some? && w.hold.value.owned == owned && w.hold.value.state == state
    }

    ghost predicate Valid()
      reads this, mac
    {
      Matches() && Reachable(w) && w.pc.Idle?
    }

    /** A hold of an app that is running and holds none. */
    constructor (mac: Mac, path: bool, ghost before: World)
      requires Reachable(before) && before.pc.Idle? && before.hold.None? && before.sentinel.Gone?
      requires before.path == path && before.disabled == mac.disabled && before.marker == mac.marker
      ensures Valid() && this.mac == mac && w == before.(hold := Some(NEW_HOLD))
    {
      this.mac, this.path, owned, state, sentinel := mac, path, false, None, Gone;
      ReachableNext(before, NewHold);
      w := Next(before, NewHold);
    }

    /** Marker first, then a sentinel, unless one is on guard already. */
    method Arm(ghost back: Back, luck: Luck) returns (ok: bool)
      requires Matches() && Reachable(w) && CanArm(w, back)
      modifies `sentinel, `w, mac`marker
      ensures Matches() && Reachable(w) && w == ArmResult(old(w), back, luck)
      ensures ok <==> path && (old(mac.marker) || luck.writes) && (Alive(old(sentinel)) || luck.spawns)
      ensures mac.marker == (old(mac.marker) || (path && luck.writes))
      ensures sentinel == if !path || !mac.marker || Alive(old(sentinel)) then old(sentinel)
                          else if luck.spawns then Waiting else Gone
    {
      ok := false;
      ArmReaches(w, back, luck);
      if path {
        if !mac.marker && luck.writes {
          mac.marker := true;
        }
        if mac.marker {
          if Alive(sentinel) {
            ok := true;
          } else {
            sentinel := if luck.spawns then Waiting else Gone;
            ok := sentinel.Waiting?;
          }
        }
      }
      w := ArmResult(w, back, luck);
    }

    /** For a sentinel that has nothing to reset. */
    method Disarm()
      modifies `sentinel
      ensures sentinel == Gone
    {
      if !sentinel.Gone? {
        sentinel := Gone;
      }
    }

    method Take(luck: Luck) returns (lid: Lid)
      requires Matches() && Reachable(w) && CanTake(w)
      modifies `owned, `sentinel, `w, mac
      ensures Reachable(w) && w == TakeResult(old(w), luck)
      ensures w.hold.value == HoldState(owned, Some(lid), w.hold.value.turned, Untouched)
      ensures Mirrors(w, mac.disabled, mac.marker, path, sentinel)
      ensures old(mac.disabled) ==> lid == Held && !owned && unchanged(mac) && sentinel == old(sentinel)
      ensures !old(mac.disabled) ==>
                (lid == Held <==> path && (old(mac.marker) || luck.writes) && (Alive(old(sentinel)) || luck.spawns)
                                  && luck.sets)
      ensures !old(mac.disabled) && lid == Held ==> owned && mac.disabled && mac.marker && Alive(sentinel)
      ensures !old(mac.disabled) && lid != Held ==>
                && lid == Refused && !owned && !mac.disabled && sentinel == Gone
                && mac.marker == ((old(mac.marker) || (path && luck.writes)) && !(path && luck.removes))
    {
      TakeReaches(w, luck);
      ghost var was := w;
      if mac.disabled {
        w := TakeResult(was, luck);
        return Held;
      }
      ReachableNext(w, App(true));
      w := Next(w, App(true));
      var armed := Arm(ToTake, luck);
      if armed {
        var granted := mac.Set(true, luck.sets);
        if granted {
          owned := true;
          w := TakeResult(was, luck);
          return Held;
        }
      }
      Disarm();
      if path && luck.removes {
        mac.marker := false;
      }
      w := TakeResult(was, luck);
      lid := Refused;
    }

    /** The sentinel's reading ends, and it runs to its end. */
    method AwaitSentinel(luck: Luck) returns (success: bool)
      modifies `sentinel, mac
      ensures sentinel == Gone
      ensures success <==> old(sentinel).Waiting? && luck.sentinel.Finished?
      ensures mac.disabled
           == (old(mac.disabled) && !(old(sentinel).Waiting? && (luck.sentinel.KeptMarker? || luck.sentinel.Finished?)))
      ensures mac.marker == (old(mac.marker) && !success)
    {
      success := false;
      if sentinel.Waiting? && (luck.sentinel.KeptMarker? || luck.sentinel.Finished?) {
        mac.disabled := false;
        if luck.sentinel.Finished? {
          mac.marker := false;
          success := true;
        }
      }
      sentinel := Gone;
    }

    /** Waits for the reset. A sentinel that died early never reset. */
    method Settle(ghost after: After, luck: Luck)
      requires Mirrors(w, mac.disabled, mac.marker, path, sentinel) && w.hold.Some? && w.hold.value.owned == owned
      requires Reachable(w) && (owned ==> w.pc == SettleClose(after))
      modifies `owned, `sentinel, `w, mac
      ensures Reachable(w) && w == if old(owned) then SettleResult(old(w), after, luck) else old(w)
      ensures w.hold.Some? && w.hold.value.owned == owned && !owned
      ensures Mirrors(w, mac.disabled, mac.marker, path, sentinel)
      ensures old(owned) && (luck.resets || (old(sentinel).Waiting?
                                             && (luck.sentinel.KeptMarker? || luck.sentinel.Finished?))) ==>
                !mac.disabled
      ensures old(owned) && !luck.resets && !(old(sentinel).Waiting?
                                              && (luck.sentinel.KeptMarker? || luck.sentinel.Finished?)) ==>
                mac.disabled == old(mac.disabled)
      ensures old(owned) ==>
                mac.marker == !((old(sentinel).Waiting? && luck.sentinel.Finished?)
                                || (luck.resets && path && luck.removes))
      ensures !old(owned) ==> unchanged(mac) && sentinel == old(sentinel)
    {
      if !owned {
        return;
      }
      SettleReaches(w, after, luck);
      owned := false;
      w := SettleResult(w, after, luck);
      if !sentinel.Gone? {
        var success := AwaitSentinel(luck);
        if success {
          return;
        }
      }
      var granted := mac.Set(false, luck.resets);
      if granted && path && luck.removes {
        mac.marker := false;
      }
    }

    /** One pass while the verdict is Held. */
    method KeepHeld(luck: Luck) returns (lid: Lid)
      requires Valid() && !AnyAlive(w.stale) && state == Some(Held)
      modifies this, mac
      ensures Valid() && state == Some(lid) && w.stale == old(w.stale)
      ensures lid == if old(mac.disabled) then Held else Cleared
      ensures old(mac.disabled) ==> mac.disabled && owned == old(owned)
      ensures !old(mac.disabled) ==> !owned && !mac.disabled
      ensures old(mac.disabled) ==>
                mac.marker == (old(mac.marker) || (old(owned) && path && luck.writes))
      ensures old(mac.disabled) ==>
                sentinel == if !old(owned) || !path || !mac.marker || Alive(old(sentinel)) then old(sentinel)
                            else if luck.spawns then Waiting else Gone
    {
      w := KeepStarts(w);
      if !mac.disabled {
        Settle(ToCleared, luck);
        lid := Cleared;
      } else {
        if owned {
          var armed := Arm(ToKeep, luck);
        }
        lid := Held;
      }
      state := Some(lid);
    }

    /** The first pass of a hold. */
    method KeepNew(luck: Luck) returns (lid: Lid)
      requires Valid() && !AnyAlive(w.stale) && state.None?
      modifies this, mac
      ensures Valid() && state == Some(lid) && w.stale == old(w.stale) && !old(owned)
      ensures old(mac.disabled) ==> lid == Held && !owned && unchanged(mac)
      ensures !old(mac.disabled) ==>
                (lid == Held <==> path && (old(mac.marker) || luck.writes) && (Alive(old(sentinel)) || luck.spawns)
                                  && luck.sets)
      ensures !old(mac.disabled) && lid == Held ==> owned && mac.disabled && mac.marker && Alive(sentinel)
      ensures !old(mac.disabled) && lid != Held ==>
                && lid == Refused && !owned && !mac.disabled && sentinel == Gone
                && mac.marker == ((old(mac.marker) || (path && luck.writes)) && !(path && luck.removes))
    {
      HoldFacts(w);
      w := KeepStarts(w);
      lid := Take(luck);
      state := Some(lid);
    }

    /** One pass. A verdict other than Held stays, an outside change is not fought, and a
        lost marker or sentinel comes back. */
    method Keep(luck: Luck) returns (lid: Lid)
      requires Valid() && !AnyAlive(w.stale)
      modifies this, mac
      ensures Valid() && state == Some(lid) && w.stale == old(w.stale)
      ensures old(state) == Some(Refused) || old(state) == Some(Cleared) ==>
                Some(lid) == old(state) && unchanged(mac) && w == old(w)
      ensures old(state) == Some(Held) ==> lid == if old(mac.disabled) then Held else Cleared
      ensures old(state) == Some(Held) && old(mac.disabled) ==> mac.disabled && owned == old(owned)
      ensures old(state) == Some(Held) && !old(mac.disabled) ==> !owned && !mac.disabled
      ensures old(state) == Some(Held) && old(mac.disabled) ==>
                mac.marker == (old(mac.marker) || (old(owned) && path && luck.writes))
      ensures old(state) == Some(Held) && old(mac.disabled) ==>
                sentinel == if !old(owned) || !path || !mac.marker || Alive(old(sentinel)) then old(sentinel)
                            else if luck.spawns then Waiting else Gone
      ensures old(state).None? && old(mac.disabled) ==> lid == Held && !owned && unchanged(mac)
      ensures old(state).None? && !old(mac.disabled) ==>
                (lid == Held <==> path && (old(mac.marker) || luck.writes) && (Alive(old(sentinel)) || luck.spawns)
                                  && luck.sets)
      ensures old(state).None? && !old(mac.disabled) && lid == Held ==>
                owned && mac.disabled && mac.marker && Alive(sentinel)
      ensures old(state).None? && !old(mac.disabled) && lid != Held ==>
                && lid == Refused && !owned && !mac.disabled && sentinel == Gone
                && mac.marker == ((old(mac.marker) || (path && luck.writes)) && !(path && luck.removes))
    {
      match state {
        case None => lid := KeepNew(luck);
        case Some(Held) => lid := KeepHeld(luck);
        case Some(verdict) =>
          HoldFacts(w);
          lid := verdict;
      }
    }

    /** Gives the setting back if it is owned, and ends the hold. */
    method Release(luck: Luck)
      requires Valid()
      modifies this, mac
      ensures Reachable(w) && w.pc.Idle? && w.hold.None? && sentinel == Gone && !owned
      ensures Mirrors(w, mac.disabled, mac.marker, path, sentinel)
      ensures !old(owned) ==> unchanged(mac)
      ensures old(owned) && (luck.resets || (old(sentinel).Waiting?
                                             && (luck.sentinel.KeptMarker? || luck.sentinel.Finished?))) ==>
                !mac.disabled
      ensures old(owned) && !luck.resets && !(old(sentinel).Waiting?
                                              && (luck.sentinel.KeptMarker? || luck.sentinel.Finished?)) ==>
                mac.disabled == old(mac.disabled)
      ensures old(owned) ==>
                mac.marker == !((old(sentinel).Waiting? && luck.sentinel.Finished?)
                                || (luck.resets && path && luck.removes))
      ensures w.ours ==> mac.disabled && mac.marker
    {
      w := ReleaseStarts(w);
      Settle(ToReleased, luck);
      Disarm();
      w := ReleaseEnds(w);
      OursFacts(w);
    }
  }

  /** At launch: a marker means that the last sentinel went down with the app. */
  method Recover(mac: Mac, path: bool, granted: bool, removes: bool, ghost before: World) returns (ghost w: World)
    requires Reachable(before) && before.pc.Off?
    requires before.disabled == mac.disabled && before.marker == mac.marker
    modifies mac
    ensures Reachable(w) && w.pc.Idle? && w.hold == before.hold && w.stale == before.stale
    ensures Mirrors(w, mac.disabled, mac.marker, path, before.sentinel)
    ensures mac.disabled == (old(mac.disabled) && !(path && old(mac.marker) && granted))
    ensures mac.marker == (old(mac.marker) && !(path && removes && (granted || !old(mac.disabled))))
    ensures w.ours ==> mac.marker
  {
    w := Go(before, Launch(path));
    w := GoApp(w, true);
    if path && mac.marker {
      w := GoApp(w, true);
      var reset := !mac.disabled;
      if mac.disabled {
        w := GoApp(w, granted);
        reset := mac.Set(false, granted);
      }
      if reset {
        w := GoApp(w, removes);
        if removes {
          mac.marker := false;
        }
      }
    }
    ReachableKeeps(w);
  }

  /** What holds of a hold between two calls. */
  lemma HoldFacts(w: World)
    requires Reachable(w) && w.pc.Idle? && w.hold.Some?
    ensures w.hold.value.state.None? ==> w.hold.value == NEW_HOLD
    ensures w.hold.value.owned ==> w.hold.value.state == Some(Held) && w.marker
  {
    ReachableKeeps(w);
  }

  lemma OursFacts(w: World)
    requires Reachable(w)
    ensures w.ours ==> w.disabled && w.marker
  {
    ReachableKeeps(w);
  }

  // ---------------------------------------------------------------- arming, as a value

  predicate CanArm(w: World, back: Back) {
    w.pc == ArmLook(back) && w.hold.Some? && !AnyAlive(w.stale) && (back.ToKeep? ==> w.hold.value.state == Some(Held))
  }

  predicate ArmMarks(w: World, luck: Luck) {
    w.path && (w.marker || luck.writes)
  }

  predicate ArmOk(w: World, luck: Luck) {
    ArmMarks(w, luck) && (Alive(w.sentinel) || luck.spawns)
  }

  function ArmResult(w: World, back: Back, luck: Luck): World {
    w.(marker := w.marker || ArmMarks(w, luck),
       sentinel := if !ArmMarks(w, luck) || Alive(w.sentinel) then w.sentinel
                   else if luck.spawns then Waiting else Gone,
       pc := if back.ToKeep? then Idle else if ArmOk(w, luck) then TakeSet else TakeDisarm)
  }

  lemma Go(w: World, step: Step) returns (v: World)
    requires Reachable(w) && Enabled(w, step) && Timely(w, step)
    ensures Reachable(v) && v == Next(w, step)
  {
    ReachableNext(w, step);
    v := Next(w, step);
  }

  lemma GoApp(w: World, ok: bool) returns (v: World)
    requires Reachable(w) && Enabled(w, App(ok)) && Timely(w, App(ok))
    ensures Reachable(v) && v == AppNext(w, ok)
  {
    v := Go(w, App(ok));
  }

  lemma SpawnReaches(w: World, back: Back, luck: Luck)
    requires Reachable(w) && w.pc == ArmSpawn(back) && w.hold.Some? && w.path && w.marker
    requires back.ToKeep? ==> w.hold.value.state == Some(Held)
    ensures Reachable(ArmResult(w, back, luck))
  {
    var v := GoApp(w, luck.spawns);
    assert v == ArmResult(w, back, luck);
  }

  lemma ArmReaches(w: World, back: Back, luck: Luck)
    requires Reachable(w) && CanArm(w, back)
    ensures Reachable(ArmResult(w, back, luck))
  {
    var v := GoApp(w, luck.writes);
    if v.pc.ArmWrite? {
      v := GoApp(v, luck.writes);
    }
    if v.pc.ArmSpawn? {
      SpawnReaches(v, back, luck);
      assert ArmResult(v, back, luck) == ArmResult(w, back, luck);
    } else {
      assert v == ArmResult(w, back, luck);
    }
  }

  // ---------------------------------------------------------------- taking and giving back, as values

  predicate Mirrors(w: World, disabled: bool, marker: bool, path: bool, sentinel: Process) {
    w.disabled == disabled && w.marker == marker && w.path == path && w.sentinel == sentinel
  }

  predicate CanTake(w: World) {
    w.pc.TakeRead? && w.hold == Some(NEW_HOLD) && !AnyAlive(w.stale)
  }

  predicate Takes(w: World, luck: Luck) {
    !w.disabled && ArmOk(w, luck) && luck.sets
  }

  function TakeResult(w: World, luck: Luck): World
    requires w.hold.Some?
  {
    var armed := ArmResult(w, ToTake, luck);
    if w.disabled then SetState(w, Held)
    else if Takes(w, luck) then
      armed.(disabled := true, ours := true, hold := Some(HoldState(true, Some(Held), 1, Untouched)), pc := Idle)
    else
      SetState(w.(marker := armed.marker && !(w.path && luck.removes), sentinel := Gone), Refused)
  }

  lemma TakeRefused(w: World, luck: Luck) returns (v: World)
    requires Reachable(w) && w.pc.TakeDisarm? && w.hold.Some?
    ensures Reachable(v)
    ensures v == SetState(w.(marker := w.marker && !(w.path && luck.removes), sentinel := Gone), Refused)
  {
    v := GoApp(w, true);
    v := GoApp(v, luck.removes);
  }

  lemma TakeEnds(w: World, armed: World, luck: Luck)
    requires CanTake(w) && !w.disabled && Reachable(armed) && armed == ArmResult(w, ToTake, luck)
    ensures Reachable(TakeResult(w, luck))
  {
    if armed.pc.TakeSet? {
      var v := GoApp(armed, luck.sets);
      if luck.sets {
        assert v == TakeResult(w, luck);
      } else {
        v := TakeRefused(v, luck);
        assert v == TakeResult(w, luck);
      }
    } else {
      var v := TakeRefused(armed, luck);
      assert v == TakeResult(w, luck);
    }
  }

  lemma TakeReaches(w: World, luck: Luck)
    requires Reachable(w) && CanTake(w)
    ensures Reachable(TakeResult(w, luck))
  {
    var v := GoApp(w, true);
    if w.disabled {
      assert v == TakeResult(w, luck);
    } else {
      ArmReaches(v, ToTake, luck);
      TakeEnds(w, ArmResult(v, ToTake, luck), luck);
    }
  }

  predicate SentinelResets(p: Process, luck: Luck) {
    p.Waiting? && (luck.sentinel.KeptMarker? || luck.sentinel.Finished?)
  }

  predicate SentinelDone(p: Process, luck: Luck) {
    p.Waiting? && luck.sentinel.Finished?
  }

  /** One of the two attempts turned sleep on again. */
  predicate SettleResets(p: Process, luck: Luck) {
    SentinelResets(p, luck) || luck.resets
  }

  function SettleResult(w: World, after: After, luck: Luck): World
    requires w.hold.Some?
  {
    var reset := SettleResets(w.sentinel, luck);
    var done := SentinelDone(w.sentinel, luck);
    var h := w.hold.value.(owned := false, settling := if reset then Reset else Failed);
    Finish(w.(disabled := w.disabled && !reset,
              ours := w.ours && !reset,
              marker := w.marker && !done && !(luck.resets && w.path && luck.removes),
              sentinel := Gone,
              hold := Some(h)), after)
  }

  /** The app's own attempt, after the sentinel's. */
  lemma SetReaches(w: World, after: After, luck: Luck) returns (v: World)
    requires Reachable(w) && w.pc == SettleSet(after) && w.hold.Some?
    ensures Reachable(v)
    ensures var h := w.hold.value;
            v == if luck.resets then
                   Finish(TurnedOn(w).(marker := w.marker && !(w.path && luck.removes),
                                       hold := Some(h.(settling := Reset))), after)
                 else
                   Finish(w.(hold := Some(h.(settling := if h.settling.Pending? then Failed else h.settling))), after)
  {
    v := GoApp(w, luck.resets);
    if v.pc.SettleRemove? {
      v := GoApp(v, luck.removes);
    }
  }

  /** Up to the end of the sentinel, if there is one. */
  lemma CloseReaches(w: World, after: After, luck: Luck) returns (v: World)
    requires Reachable(w) && w.pc == SettleClose(after) && w.hold.Some?
    requires w.sentinel.Waiting? || w.sentinel.Gone? || w.sentinel == Ended(false)
    ensures Reachable(v)
    ensures var reset := SentinelResets(w.sentinel, luck);
            var done := SentinelDone(w.sentinel, luck);
            var closed := w.(disabled := w.disabled && !reset, ours := w.ours && !reset, marker := w.marker && !done,
                             sentinel := Gone,
                             hold := Some(w.hold.value.(owned := false, settling := if reset then Reset else Pending)));
            v == if done then Finish(closed, after) else closed.(pc := SettleSet(after))
  {
    v := GoApp(w, true);
    if v.pc.SettleWait? {
      v := WaitReaches(v, luck);
    }
  }

  /** The app waits for the sentinel and goes by how it ended. */
  lemma WaitReaches(w: World, luck: Luck) returns (v: World)
    requires Reachable(w) && w.pc.SettleWait? && w.hold.Some? && (w.sentinel.Closed? || w.sentinel == Ended(false))
    ensures Reachable(v)
    ensures var p := if w.sentinel.Closed? then Waiting else Gone;
            var h := w.hold.value;
            var ended := w.(disabled := w.disabled && !SentinelResets(p, luck),
                            ours := w.ours && !SentinelResets(p, luck),
                            marker := w.marker && !SentinelDone(p, luck),
                            hold := Some(if SentinelResets(p, luck) then h.(settling := Reset) else h),
                            sentinel := Gone);
            v == if SentinelDone(p, luck) then Finish(ended, w.pc.after) else ended.(pc := SettleSet(w.pc.after))
  {
    v := SentinelReaches(w, luck);
    v := GoApp(v, true);
  }

  lemma OwnedFacts(w: World, after: After)
    requires Reachable(w) && w.pc == SettleClose(after) && w.hold.Some?
    ensures w.marker && !(w.sentinel.Closed? || w.sentinel.ResetDone? || w.sentinel == Ended(true))
  {
    ReachableKeeps(w);
  }

  lemma SettleReaches(w: World, after: After, luck: Luck)
    requires Reachable(w) && w.pc == SettleClose(after) && w.hold.Some? && w.hold.value.owned
    ensures Reachable(SettleResult(w, after, luck))
    ensures w.marker && !(w.sentinel.Closed? || w.sentinel.ResetDone? || w.sentinel == Ended(true))
  {
    OwnedFacts(w, after);
    var v := CloseReaches(w, after, luck);
    if SentinelDone(w.sentinel, luck) {
      assert v == SettleResult(w, after, luck);
    } else {
      v := SetReaches(v, after, luck);
      assert v == SettleResult(w, after, luck);
    }
  }

  /** A sentinel whose pipe closed runs to its end. */
  lemma SentinelReaches(w: World, luck: Luck) returns (v: World)
    requires Reachable(w) && w.pc.SettleWait? && w.hold.Some? && (w.sentinel.Closed? || w.sentinel == Ended(false))
    ensures Reachable(v)
    ensures var p := if w.sentinel.Closed? then Waiting else Gone;
            var h := w.hold.value;
            v == w.(disabled := w.disabled && !SentinelResets(p, luck),
                    ours := w.ours && !SentinelResets(p, luck),
                    marker := w.marker && !SentinelDone(p, luck),
                    hold := Some(if SentinelResets(p, luck) then h.(settling := Reset) else h),
                    sentinel := Ended(SentinelDone(p, luck)))
  {
    v := w;
    if w.sentinel.Closed? {
      if luck.sentinel.DiedBefore? {
        v := Go(v, SentinelKilled);
      } else if luck.sentinel.WasRefused? {
        v := Go(v, SentinelRuns(false));
      } else {
        v := Go(v, SentinelRuns(true));
        v := Go(v, SentinelRuns(luck.sentinel.Finished?));
      }
    }
  }

  /** What a pass has to do. */
  function KeepStart(w: World): World
    requires w.hold.Some?
  {
    var h := w.hold.value;
    if h.state.None? then w.(pc := TakeRead)
    else if h.state.value != Held then w
    else if w.disabled then (if h.owned then w.(pc := ArmLook(ToKeep)) else w)
    else if h.owned then w.(pc := SettleClose(ToCleared))
    else SetState(w, Cleared)
  }

  lemma KeepStarts(w: World) returns (v: World)
    requires Reachable(w) && w.pc.Idle? && w.hold.Some?
    ensures Reachable(v) && v == KeepStart(w)
  {
    v := Go(w, Keep);
    if v.pc.KeepRead? {
      v := GoApp(v, true);
    }
  }

  lemma ReleaseStarts(w: World) returns (v: World)
    requires Reachable(w) && w.pc.Idle? && w.hold.Some?
    ensures Reachable(v)
    ensures v == w.(pc := if w.hold.value.owned then SettleClose(ToReleased) else ReleaseDisarm)
  {
    v := Go(w, Release);
  }

  lemma ReleaseEnds(w: World) returns (v: World)
    requires Reachable(w) && w.pc.ReleaseDisarm? && w.hold.Some?
    ensures Reachable(v) && v == w.(sentinel := Gone, hold := None, pc := Idle)
  {
    v := GoApp(w, true);
  }
}
