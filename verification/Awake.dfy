/** A Stay Awake session: its clock in saturating 64-bit milliseconds. */
module AwakeClock {
  import opened Prelude

  const MAX: nat := 0xFFFF_FFFF_FFFF_FFFF

  type u64 = x: nat | x <= MAX

  function SatAdd(a: u64, b: u64): u64 {
    if a + b <= MAX then a + b else MAX
  }

  function SatSub(a: u64, b: u64): u64 {
    if a >= b then a - b else 0
  }

  function SatMul(a: u64, b: u64): u64 {
    if a * b <= MAX then a * b else MAX
  }

  function DivCeil(a: u64, b: u64): u64
    requires b > 0
  {
    if a % b == 0 then a / b else a / b + 1
  }

  /** `elapsed` is banked by earlier runs, `started` is None while paused. */
  datatype Session = Session(length: Option<u64>, elapsed: u64, started: Option<u64>) {
    predicate Running() {
      started.Some?
    }

    function Ran(now: u64): u64 {
      SatAdd(elapsed, if started.Some? then SatSub(now, started.value) else 0)
    }

    function Left(now: u64): Option<u64> {
      if length.Some? then Some(SatSub(length.value, Ran(now))) else None
    }

    predicate Expired(now: u64) {
      length.Some? && Ran(now) >= length.value
    }

    function Since(): Option<u64> {
      if length.Some? || started.None? then None else Some(SatSub(started.value, elapsed))
    }

    function Until(): Option<u64> {
      if length.None? || started.None? then None
      else Some(SatAdd(started.value, SatSub(length.value, elapsed)))
    }

    function Frozen(): u64 {
      match length
      case Some(len) => SatMul(DivCeil(SatSub(len, elapsed), 1000), 1000)
      case None => elapsed / 1000 * 1000
    }

    /** What `-t` is given. */
    function Seconds(now: u64): Option<u64> {
      match Left(now)
      case Some(left) => Some(if DivCeil(left, 1000) < 1 then 1 else DivCeil(left, 1000))
      case None => None
    }

    function Paused(now: u64): Session {
      if started.Some? then Session(length, SatAdd(elapsed, SatSub(now, started.value)), None) else this
    }

    function Resumed(now: u64): Session {
      if started.None? then this.(started := Some(now)) else this
    }
  }

  function Fresh(seconds: Option<u64>, now: u64): Session {
    Session(if seconds.Some? then Some(SatMul(seconds.value, 1000)) else None, 0, Some(now))
  }

  // ---------------------------------------------------------------- the clock is exact

  datatype Op = Pause(at: u64) | Resume(at: u64)

  function Apply(s: Session, op: Op): Session {
    match op
    case Pause(at) => s.Paused(at)
    case Resume(at) => s.Resumed(at)
  }

  function ApplyAll(s: Session, ops: seq<Op>): Session {
    if ops == [] then s else Apply(ApplyAll(s, ops[..|ops| - 1]), ops[|ops| - 1])
  }

  predicate Ordered(start: u64, ops: seq<Op>, now: u64) {
    && start <= now
    && (forall i :: 0 <= i < |ops| ==> start <= ops[i].at <= now)
    && (forall i, j :: 0 <= i < j < |ops| ==> ops[i].at <= ops[j].at)
  }

  /** The millisecond `t` is one the session runs in: the last thing done by then was not a pause. */
  predicate RunsAt(ops: seq<Op>, t: nat) {
    ops == [] || if ops[|ops| - 1].at <= t then ops[|ops| - 1].Resume? else RunsAt(ops[..|ops| - 1], t)
  }

  /** How many milliseconds from `start` on, before `now`, the session ran in. */
  function Ticks(start: nat, ops: seq<Op>, now: nat): (n: nat)
    ensures n <= if now <= start then 0 else now - start
  {
    if now <= start then 0
    else Ticks(start, ops, now - 1) + if RunsAt(ops, now - 1) then 1 else 0
  }

  /** An operation changes nothing about the time before it. */
  lemma {:induction false} TicksBefore(start: nat, ops: seq<Op>, op: Op, now: nat)
    requires now <= op.at
    ensures Ticks(start, ops + [op], now) == Ticks(start, ops, now)
    decreases now
  {
    if now > start {
      TicksBefore(start, ops, op, now - 1);
      assert (ops + [op])[..|ops|] == ops;
    }
  }

  lemma {:induction false} TicksAfter(start: nat, ops: seq<Op>, op: Op, now: nat)
    requires start <= op.at <= now
    ensures Ticks(start, ops + [op], now) == Ticks(start, ops, op.at) + if op.Resume? then now - op.at else 0
    decreases now
  {
    if now == op.at {
      TicksBefore(start, ops, op, now);
    } else {
      TicksAfter(start, ops, op, now - 1);
    }
  }

  lemma {:induction false} TicksAll(start: nat, now: nat)
    requires start <= now
    ensures Ticks(start, [], now) == now - start
  {
    if start < now {
      TicksAll(start, now - 1);
    }
  }

  lemma OrderedInit(start: u64, ops: seq<Op>, now: u64)
    requires Ordered(start, ops, now) && ops != []
    ensures Ordered(start, ops[..|ops| - 1], ops[|ops| - 1].at)
  {
  }

  lemma RanNext(t: Session, op: Op, ran: nat, now: u64)
    requires t.Ran(op.at) == ran <= op.at <= now && (t.Running() ==> t.started.value <= op.at)
    ensures var u := Apply(t, op);
            && u.Ran(now) == ran + (if op.Resume? then now - op.at else 0)
            && u.Running() == op.Resume? && u.length == t.length
            && (u.Running() ==> u.started.value <= now)
  {
  }

  /** From any time at which a session runs, its clock shows what it had shown, and exactly the
      milliseconds it ran in since: nothing saturates, nothing is counted twice or lost. */
  lemma {:induction false} RanSince(s: Session, at: u64, ops: seq<Op>, now: u64)
    requires s.Running() && s.elapsed <= s.started.value <= at && Ordered(at, ops, now)
    ensures var t := ApplyAll(s, ops);
            && t.Ran(now) == s.Ran(at) + Ticks(at, ops, now)
            && t.Running() == (ops == [] || ops[|ops| - 1].Resume?)
            && t.length == s.length
            && (t.Running() ==> t.started.value <= now)
  {
    if ops == [] {
      TicksAll(at, now);
    } else {
      var init, op := ops[..|ops| - 1], ops[|ops| - 1];
      var ran := s.Ran(at) + Ticks(at, init, op.at);
      OrderedInit(at, ops, now);
      RanSince(s, at, init, op.at);
      RanNext(ApplyAll(s, init), op, ran, now);
      assert ops == init + [op];
      TicksAfter(at, init, op, now);
    }
  }

  /** After any pauses and resumes at times in order, the clock of a new session shows exactly
      the milliseconds it ran in. */
  lemma RanExactly(seconds: Option<u64>, start: u64, ops: seq<Op>, now: u64)
    requires Ordered(start, ops, now)
    ensures var s := ApplyAll(Fresh(seconds, start), ops);
            && s.Ran(now) == Ticks(start, ops, now)
            && s.Running() == (ops == [] || ops[|ops| - 1].Resume?)
            && s.length == Fresh(seconds, start).length
            && (s.Running() ==> s.started.value <= now)
  {
    RanSince(Fresh(seconds, start), start, ops, now);
  }

  /** How many milliseconds from `at` on, before `now`, the session did not run in. */
  function Idle(at: nat, ops: seq<Op>, now: nat): nat {
    if now <= at then 0
    else Idle(at, ops, now - 1) + if RunsAt(ops, now - 1) then 0 else 1
  }

  lemma {:induction false} TicksAndIdle(at: nat, ops: seq<Op>, now: nat)
    requires at <= now
    ensures Ticks(at, ops, now) + Idle(at, ops, now) == now - at
  {
    if at < now {
      TicksAndIdle(at, ops, now - 1);
    }
  }

  /** When a timed session is over if nothing pauses it any more. */
  function End(s: Session, now: u64): int
    requires s.length.Some?
  {
    now + s.length.value - s.Ran(now)
  }

  /** That is the end shown, and what is left comes to it. */
  lemma EndMeaning(s: Session, now: u64)
    requires s.length.Some?
    ensures !s.Expired(now) ==> End(s, now) == now + s.Left(now).value
    ensures s.Running() && s.elapsed <= s.started.value <= now && s.elapsed <= s.length.value && End(s, now) <= MAX ==>
              s.Until() == Some(End(s, now))
  {
  }

  // ---------------------------------------------------------------- readings

  /** A running timed session is over when its end has come, unless the end lies beyond
      the last millisecond there is and that one is reached. */
  lemma ExpiredExactly(s: Session, now: u64)
    requires s.length.Some? && s.started.Some? && s.started.value <= now
    ensures (s.Expired(now) <==> now >= s.Until().value)
       <==> !(now == MAX && s.started.value + s.length.value - s.elapsed > MAX)
  {
  }

  /** With nothing left the session is over, and until then both ends agree on what is left. */
  lemma LeftUntil(s: Session, now: u64)
    requires s.length.Some? && s.started.Some? && s.started.value <= now
    ensures s.Left(now) == Some(0) <==> s.Expired(now)
    ensures !s.Expired(now) && s.Until().value < MAX ==> now + s.Left(now).value == s.Until().value
  {
  }

  /** An open session counts up from its anchor. */
  lemma SinceExactly(start: u64, ops: seq<Op>, now: u64)
    requires Ordered(start, ops, now)
    ensures var s := ApplyAll(Fresh(None, start), ops);
            s.Running() ==> s.Since().Some? && s.Since().value + s.Ran(now) == now
  {
    RanExactly(None, start, ops, now);
    BankedBefore(None, start, ops, now);
  }

  lemma {:induction false} BankedBefore(seconds: Option<u64>, start: u64, ops: seq<Op>, now: u64)
    requires Ordered(start, ops, now)
    ensures var s := ApplyAll(Fresh(seconds, start), ops);
            && s.elapsed <= now - start
            && (s.Running() ==> s.elapsed <= s.started.value - start && s.started.value <= now)
  {
    if ops != [] {
      OrderedInit(start, ops, now);
      BankedBefore(seconds, start, ops[..|ops| - 1], ops[|ops| - 1].at);
    }
  }

  lemma CeilBounds(a: u64)
    ensures a <= DivCeil(a, 1000) * 1000 < a + 1000
  {
  }

  /** The frozen reading of a paused session is less than a second off, down counting up,
      up counting down. */
  lemma FrozenExactly(s: Session, now: u64)
    requires !s.Running()
    ensures s.length.Some? ==> s.Left(now).value <= s.Frozen() < s.Left(now).value + 1000
    ensures s.length.None? ==> s.Frozen() <= s.Ran(now) < s.Frozen() + 1000
    ensures s.Frozen() % 1000 == 0 || s.Frozen() == MAX
  {
    if s.length.Some? {
      CeilBounds(SatSub(s.length.value, s.elapsed));
    }
  }

  /** caffeinate is not told to end before the session, nor a second later. */
  lemma SecondsCover(s: Session, now: u64)
    requires s.length.Some?
    ensures s.Left(now).value <= s.Seconds(now).value * 1000
    ensures !s.Expired(now) ==> s.Seconds(now).value * 1000 < s.Left(now).value + 1000
    ensures s.Seconds(now).value >= 1
  {
    CeilBounds(s.Left(now).value);
  }
}
