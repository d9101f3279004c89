/** The conversation in the terminal: how turns are saved, and how a session is resumed. */
module ReplyChain {
  import opened Prelude
  import opened Roles
  import Chats

  datatype Repl = Repl(sessionId: string, last: Option<int>, started: bool)

  /** The rows, the ids of the sessions that have a row of their own, and the terminal. */
  datatype State = State(chats: Chats.ChatTable, sessions: set<string>, repl: Repl)

  /** One row saved, or a session resumed. `works` says whether the writes or reads went through. */
  datatype Step =
    | Save(role: Role, content: string, id: int, now: nat, model: string, works: bool)
    | Resume(sessionId: string, works: bool)

  predicate InSession(chats: Chats.ChatTable, session: string, id: int) {
    id in chats && chats[id].sessionId == session
  }

  // ---------------------------------------------------------------- one chain

  predicate NoneBetween(chats: Chats.ChatTable, session: string, low: int, high: int) {
    forall k :: k in chats && chats[k].sessionId == session ==> !(low < k < high)
  }

  /** The row is the first of its session, or points to the one just before it. */
  predicate LinksBack(chats: Chats.ChatTable, session: string, id: int)
    requires id in chats
  {
    match chats[id].contextId
    case None => forall k :: k in chats && chats[k].sessionId == session ==> k >= id
    case Some(p) => InSession(chats, session, p) && p < id && NoneBetween(chats, session, p, id)
  }

  ghost predicate Chained(chats: Chats.ChatTable, session: string) {
    forall id {:trigger LinksBack(chats, session, id)} ::
      id in chats && chats[id].sessionId == session ==> LinksBack(chats, session, id)
  }

  ghost predicate AllChained(chats: Chats.ChatTable) {
    forall session :: Chained(chats, session)
  }

  /** The last row of a session, None without rows. */
  ghost predicate IsLast(chats: Chats.ChatTable, session: string, last: Option<int>) {
    match last
    case None => forall k :: k in chats ==> chats[k].sessionId != session
    case Some(id) =>
      InSession(chats, session, id) && forall k :: k in chats && chats[k].sessionId == session ==> k <= id
  }

  ghost function LastOf(chats: Chats.ChatTable, session: string): (last: Option<int>)
    ensures IsLast(chats, session, last)
  {
    var rows := set id | id in chats && chats[id].sessionId == session;
    assert forall id :: id in chats && chats[id].sessionId == session ==> id in rows;
    if rows == {} then None
    else
      GreatestExists(rows);
      var last :| last in rows && forall x :: x in rows ==> x <= last;
      Some(last)
  }

  ghost predicate Good(s: State) {
    AllChained(s.chats) && IsLast(s.chats, s.repl.sessionId, s.repl.last)
  }

  // ---------------------------------------------------------------- steps

  /** A prompt only points back in a session that has started. */
  function ContextOf(r: Repl, role: Role): Option<int> {
    if role.User? && !r.started then None else r.last
  }

  function DraftOf(r: Repl, role: Role, content: string, model: string): Chats.Draft {
    Chats.Draft(content, r.sessionId, role, ContextOf(r, role), model)
  }

  ghost predicate Enabled(s: State, step: Step) {
    match step
    case Save(role, _, id, _, _, _) => (role.User? || role.Assistant?) && forall k :: k in s.chats ==> k < id
    case Resume(_, _) => true
  }

  /** The first prompt comes with the session. Resuming needs the session and a row of it:
      without them the program ends. */
  ghost function Next(s: State, user: string, step: Step): State {
    match step
    case Save(role, content, id, now, model, works) =>
      if !works then s
      else
        State(s.chats[id := Chats.NewRow(s.chats, user, DraftOf(s.repl, role, content, model), id, now)],
              s.sessions + (if role.User? && !s.repl.started then {s.repl.sessionId} else {}),
              s.repl.(last := Some(id), started := s.repl.started || role.User?))
    case Resume(session, works) =>
      var last := LastOf(s.chats, session);
      if works && last.Some? && session in s.sessions && session != "" then s.(repl := Repl(session, last, true)) else s
  }

  ghost predicate CanRun(s: State, user: string, steps: seq<Step>)
    decreases |steps|
  {
    steps == [] || (Enabled(s, steps[0]) && CanRun(Next(s, user, steps[0]), user, steps[1..]))
  }

  ghost function Run(s: State, user: string, steps: seq<Step>): State
    requires CanRun(s, user, steps)
    decreases |steps|
  {
    if steps == [] then s else Run(Next(s, user, steps[0]), user, steps[1..])
  }

  /** A prompt that goes into a session that has rows but was never started. */
  ghost predicate Orphans(s: State, step: Step) {
    step.Save? && step.works && step.role.User? && !s.repl.started && s.repl.last.Some?
  }

  ghost predicate AnyOrphan(s: State, user: string, steps: seq<Step>)
    requires CanRun(s, user, steps)
    decreases |steps|
  {
    steps != [] && (Orphans(s, steps[0]) || AnyOrphan(Next(s, user, steps[0]), user, steps[1..]))
  }

  // ---------------------------------------------------------------- what steps keep

  lemma SaveKeeps(s: State, user: string, step: Step, session: string)
    requires Good(s) && Enabled(s, step) && step.Save? && step.works && !Orphans(s, step)
    ensures Chained(Next(s, user, step).chats, session)
  {
    var after := Next(s, user, step).chats;
    assert Chained(s.chats, session);
    forall id | id in after && after[id].sessionId == session ensures LinksBack(after, session, id) {
      if id != step.id {
        assert LinksBack(s.chats, session, id);
      }
    }
  }

  lemma StepKeeps(s: State, user: string, step: Step)
    requires Good(s) && Enabled(s, step) && !Orphans(s, step)
    ensures Good(Next(s, user, step))
  {
    if step.Save? && step.works {
      forall session ensures Chained(Next(s, user, step).chats, session) {
        SaveKeeps(s, user, step, session);
      }
    }
  }

  lemma {:induction false} RunKeeps(s: State, user: string, steps: seq<Step>)
    requires Good(s) && CanRun(s, user, steps) && !AnyOrphan(s, user, steps)
    ensures Good(Run(s, user, steps))
    decreases |steps|
  {
    if steps != [] {
      StepKeeps(s, user, steps[0]);
      RunKeeps(Next(s, user, steps[0]), user, steps[1..]);
    }
  }

  /** Two rows of a session that both point to nothing. */
  ghost predicate TwoFirsts(chats: Chats.ChatTable, a: int, b: int) {
    a in chats && b in chats && a < b && chats[a].sessionId == chats[b].sessionId && chats[b].contextId.None?
  }

  lemma TwoFirstsBreak(chats: Chats.ChatTable, a: int, b: int)
    requires TwoFirsts(chats, a, b)
    ensures !AllChained(chats)
  {
    var session := chats[b].sessionId;
    assert !LinksBack(chats, session, b);
    assert !Chained(chats, session);
  }

  lemma {:induction false} BreakStays(s: State, user: string, steps: seq<Step>, a: int, b: int)
    requires CanRun(s, user, steps) && TwoFirsts(s.chats, a, b)
    ensures TwoFirsts(Run(s, user, steps).chats, a, b)
    decreases |steps|
  {
    if steps != [] {
      BreakStays(Next(s, user, steps[0]), user, steps[1..], a, b);
    }
  }

  /** Over any run of saved rows, failed writes and resumes, with ids that increase and no
      rows of others: every session is one chain, from its first row on each pointing to the
      one saved just before, exactly when no prompt went into a session that had rows but
      had not started. */
  lemma {:induction false} ChainExactly(s: State, user: string, steps: seq<Step>)
    requires Good(s) && CanRun(s, user, steps)
    ensures AllChained(Run(s, user, steps).chats) <==> !AnyOrphan(s, user, steps)
    decreases |steps|
  {
    if steps != [] {
      var next := Next(s, user, steps[0]);
      if Orphans(s, steps[0]) {
        assert TwoFirsts(next.chats, s.repl.last.value, steps[0].id);
        BreakStays(next, user, steps[1..], s.repl.last.value, steps[0].id);
        TwoFirstsBreak(Run(s, user, steps).chats, s.repl.last.value, steps[0].id);
      } else {
        StepKeeps(s, user, steps[0]);
        ChainExactly(next, user, steps[1..]);
      }
    }
  }

  // ---------------------------------------------------------------- sessions

  ghost predicate Prompted(chats: Chats.ChatTable, session: string) {
    exists id :: InSession(chats, session, id) && chats[id].role.User?
  }

  /** A session has a row of its own exactly when a prompt was saved in it. */
  ghost predicate Tracked(s: State) {
    && (forall session :: session in s.sessions <==> Prompted(s.chats, session))
    && (s.repl.started ==> s.repl.sessionId in s.sessions)
  }

  ghost predicate AllHaveSessions(s: State) {
    forall id :: id in s.chats ==> s.chats[id].sessionId in s.sessions
  }

  lemma PromptedNext(s: State, user: string, step: Step, session: string)
    requires Enabled(s, step) && step.Save? && step.works
    ensures Prompted(Next(s, user, step).chats, session)
       <==> Prompted(s.chats, session) || (step.role.User? && session == s.repl.sessionId)
  {
    var after := Next(s, user, step).chats;
    assert InSession(after, s.repl.sessionId, step.id);
    if id :| InSession(s.chats, session, id) && s.chats[id].role.User? {
      assert InSession(after, session, id);
    }
    if id :| InSession(after, session, id) && after[id].role.User? && id != step.id {
      assert InSession(s.chats, session, id);
    }
  }

  lemma StepTracks(s: State, user: string, step: Step)
    requires Tracked(s) && Enabled(s, step)
    ensures Tracked(Next(s, user, step))
  {
    if step.Save? && step.works {
      var next := Next(s, user, step);
      forall session ensures session in next.sessions <==> Prompted(next.chats, session) {
        PromptedNext(s, user, step, session);
      }
    }
  }

  lemma StepHasSession(s: State, user: string, step: Step)
    requires Tracked(s) && AllHaveSessions(s) && Enabled(s, step) && step.Save? && (step.role.User? || s.repl.started)
    ensures AllHaveSessions(Next(s, user, step))
  {
  }

  /** Over any run the sessions with a row of their own are those with a prompt: the rows
      without a session are the replies saved before any prompt of theirs. */
  lemma {:induction false} SessionsExactly(s: State, user: string, steps: seq<Step>)
    requires Tracked(s) && CanRun(s, user, steps)
    ensures Tracked(Run(s, user, steps))
    ensures AllHaveSessions(Run(s, user, steps)) <==>
              forall id :: id in Run(s, user, steps).chats ==>
                Prompted(Run(s, user, steps).chats, Run(s, user, steps).chats[id].sessionId)
    decreases |steps|
  {
    if steps != [] {
      StepTracks(s, user, steps[0]);
      SessionsExactly(Next(s, user, steps[0]), user, steps[1..]);
    }
  }

  /** A turn without a prompt in a new session, and then a prompt: the reply has no session
      until then, and from then on two rows of the session point back to nothing. */
  lemma ReplyBeforePrompt(user: string, session: string, reply: string, prompt: string, model: string,
                          a: int, b: int, now: nat)
    requires a < b
    ensures var empty := State(map[], {}, Repl(session, None, false));
            var one, two := Save(Assistant, reply, a, now, model, true), Save(User, prompt, b, now, model, true);
            && CanRun(empty, user, [one, two]) && CanRun(empty, user, [one])
            && InSession(Run(empty, user, [one]).chats, session, a)
            && session !in Run(empty, user, [one]).sessions
            && TwoFirsts(Run(empty, user, [one, two]).chats, a, b)
            && Run(empty, user, [one, two]).chats[a].contextId.None?
            && !AllChained(Run(empty, user, [one, two]).chats)
  {
    var empty := State(map[], {}, Repl(session, None, false));
    var one, two := Save(Assistant, reply, a, now, model, true), Save(User, prompt, b, now, model, true);
    assert [one, two][1..] == [two] && [one][1..] == [] && [two][1..] == [];
    assert Run(Next(empty, user, one), user, [two]) == Next(Next(empty, user, one), user, two);
    TwoFirstsBreak(Run(empty, user, [one, two]).chats, a, b);
  }

  // ---------------------------------------------------------------- the session object

  lemma {:induction false} RunMore(s: State, user: string, steps: seq<Step>, step: Step)
    requires CanRun(s, user, steps) && Enabled(Run(s, user, steps), step)
    ensures CanRun(s, user, steps + [step])
    ensures Run(s, user, steps + [step]) == Next(Run(s, user, steps), user, step)
    ensures AnyOrphan(s, user, steps + [step]) <==> AnyOrphan(s, user, steps) || Orphans(Run(s, user, steps), step)
    decreases |steps|
  {
    if steps == [] {
      assert steps + [step] == [step];
      assert [step][1..] == [];
    } else {
      assert (steps + [step])[1..] == steps[1..] + [step];
      RunMore(Next(s, user, steps[0]), user, steps[1..], step);
    }
  }

  /** A prompt into such a session finds what it points back to. */
  predicate Healthy(r: Repl) {
    r.started || r.last.None?
  }

  datatype Msg = Msg(role: Role, content: string)

  predicate HasPrompt(messages: seq<Msg>, n: nat)
    requires n <= |messages|
  {
    exists i :: 0 <= i < n && messages[i].role.User?
  }

  ghost predicate Fresh(chats: Chats.ChatTable, ids: seq<int>, from: nat) {
    Increasing(ids) && forall k, i :: k in chats && from <= i < |ids| ==> k < ids[i]
  }

  function PromptSteps(messages: seq<Msg>, model: string, ids: seq<int>, now: nat, luck: nat -> bool, n: nat): seq<Step>
    requires n <= |messages| <= |ids|
  {
    if n == 0 then []
    else
      PromptSteps(messages, model, ids, now, luck, n - 1)
      + if messages[n - 1].role.User? then [Save(User, messages[n - 1].content, ids[n - 1], now, model, luck(n - 1))]
        else []
  }

  /** A turn: its prompts in order, and the reply. */
  function TurnSteps(messages: seq<Msg>, reply: string, model: string, ids: seq<int>, now: nat,
                     luck: nat -> bool): seq<Step>
    requires |ids| == |messages| + 1
  {
    PromptSteps(messages, model, ids, now, luck, |messages|)
    + [Save(Assistant, reply, ids[|messages|], now, model, luck(|messages|))]
  }

  predicate AllWork(steps: seq<Step>) {
    forall i :: 0 <= i < |steps| ==> steps[i].works
  }

  /** All of them, or those up to the first that fails. */
  predicate UpToFailure(steps: seq<Step>, all: seq<Step>, ok: bool) {
    && steps <= all && steps != [] && AllWork(steps[..|steps| - 1]) && steps[|steps| - 1].works == ok
    && (ok ==> steps == all)
  }

  lemma {:induction false} PromptsFirst(messages: seq<Msg>, model: string, ids: seq<int>, now: nat,
                                        luck: nat -> bool, n: nat)
    requires |ids| == |messages| + 1 && n <= |messages|
    ensures PromptSteps(messages, model, ids, now, luck, n) <= PromptSteps(messages, model, ids, now, luck, |messages|)
    decreases |messages| - n
  {
    if n < |messages| {
      PromptsFirst(messages, model, ids, now, luck, n + 1);
    }
  }

  lemma PromptNext(messages: seq<Msg>, model: string, ids: seq<int>, now: nat, luck: nat -> bool, i: nat,
                   steps: seq<Step>, step: Step)
    requires |ids| == |messages| + 1 && i < |messages| && messages[i].role.User?
    requires steps == PromptSteps(messages, model, ids, now, luck, i) && AllWork(steps)
    requires step == Save(User, messages[i].content, ids[i], now, model, luck(i))
    ensures steps + [step] == PromptSteps(messages, model, ids, now, luck, i + 1)
    ensures step.works ==> AllWork(steps + [step])
    ensures !step.works ==> UpToFailure(steps + [step], PromptSteps(messages, model, ids, now, luck, |messages|), false)
  {
    PromptsFirst(messages, model, ids, now, luck, i + 1);
    assert (steps + [step])[..|steps + [step]| - 1] == steps;
  }

  /** The row of what one side said. */
  predicate Holds(chats: Chats.ChatTable, id: int, user: string, session: string, role: Role, content: string,
                  model: string)
  {
    && id in chats && chats[id].userId == user && chats[id].sessionId == session
    && chats[id].role == role && chats[id].content == content && chats[id].modelName == model
  }

  ghost predicate PromptsHeld(chats: Chats.ChatTable, user: string, session: string, messages: seq<Msg>,
                              model: string, ids: seq<int>, n: nat)
    requires n <= |messages| <= |ids|
  {
    forall i :: 0 <= i < n && messages[i].role.User? ==>
      Holds(chats, ids[i], user, session, User, messages[i].content, model)
  }

  ghost predicate FromIds(chats: Chats.ChatTable, before: Chats.ChatTable, ids: seq<int>) {
    forall k :: k in chats ==> k in before || k in ids
  }

  ghost predicate Reached(was: State, now: State, user: string, steps: seq<Step>) {
    CanRun(was, user, steps) && now == Run(was, user, steps)
  }

  ghost predicate Sane(was: State, now: State, user: string, steps: seq<Step>)
    requires CanRun(was, user, steps)
  {
    && (Healthy(was.repl) ==> !AnyOrphan(was, user, steps) && Healthy(now.repl))
    && (Tracked(was) && AllHaveSessions(was) ==> AllHaveSessions(now))
  }

  lemma ReachedNext(was: State, now: State, user: string, steps: seq<Step>, step: Step)
    requires Reached(was, now, user, steps) && Enabled(now, step) && step.Save?
    ensures Reached(was, Next(now, user, step), user, steps + [step])
    ensures Tracked(was) ==> Tracked(now) && Tracked(Next(now, user, step))
    ensures (Healthy(was.repl) && !AnyOrphan(was, user, steps) && Healthy(now.repl)) ==>
              !AnyOrphan(was, user, steps + [step])
  {
    RunMore(was, user, steps, step);
    if Tracked(was) {
      SessionsExactly(was, user, steps);
      StepTracks(now, user, step);
    }
  }

  lemma SaneNext(was: State, now: State, user: string, steps: seq<Step>, step: Step)
    requires Reached(was, now, user, steps) && Enabled(now, step) && step.Save? && Sane(was, now, user, steps)
    requires step.role.User? || now.repl.started
    ensures Reached(was, Next(now, user, step), user, steps + [step])
    ensures Sane(was, Next(now, user, step), user, steps + [step])
  {
    ReachedNext(was, now, user, steps, step);
    if Tracked(was) && AllHaveSessions(was) {
      StepHasSession(now, user, step);
    }
  }

  class ReplSession {
    const store: Chats.Store
    const user: string
    var sessionId: string
    var lastChatId: Option<int>
    var sessionStarted: bool
    var name: string

    constructor (store: Chats.Store, user: string, sessionId: string)
      ensures this.store == store && this.user == user
      ensures View() == Repl(sessionId, None, false)
    {
      this.store, this.user, this.sessionId := store, user, sessionId;
      lastChatId, sessionStarted, name := None, false, "";
    }

    ghost function View(): Repl
      reads this
    {
      Repl(sessionId, lastChatId, sessionStarted)
    }

    ghost function Contents(): State
      reads this, store
    {
      State(store.chats, store.sessions.Keys, View())
    }

    /** One row, with the session itself if this is its first prompt. */
    method SaveRow(role: Role, content: string, model: string, id: int, now: nat, works: bool) returns (ok: bool)
      requires store.Valid() && Enabled(Contents(), Save(role, content, id, now, model, works))
      modifies this, store
      ensures store.Valid() && ok == works
      ensures Contents() == Next(old(Contents()), user, Save(role, content, id, now, model, works))
      ensures ok ==> store.chats.Keys == old(store.chats.Keys) + {id}
      // what the row holds, and that it is the only one
      ensures ok ==> Holds(store.chats, id, user, old(sessionId), role, content, model)
      ensures ok ==> store.chats[id].contextId == if role.User? && !old(sessionStarted) then None else old(lastChatId)
      ensures ok ==> store.chats[id].createdAt == now && store.chats[id].updatedAt == now
      ensures forall k :: k in old(store.chats) ==> k in store.chats && store.chats[k] == old(store.chats)[k]
      ensures ok ==> sessionId == old(sessionId) && lastChatId == Some(id)
      ensures ok ==> sessionStarted == (old(sessionStarted) || role.User?)
      ensures !ok ==> store.chats == old(store.chats) && View() == old(View())
    {
      var parent := if role.User? && !sessionStarted then None else lastChatId;
      var draft := Chats.Draft(content, sessionId, role, parent, model);
      var r: Result<Chats.Chat, string>;
      if role.User? && !sessionStarted {
        r := store.SaveFirstChat(user, name, draft, id, now, works, works, works);
        if r.Ok? {
          sessionStarted := true;
        }
      } else {
        r := store.SaveChat(user, draft, id, now, works);
      }
      ok := r.Ok?;
      if ok {
        lastChatId := Some(r.value.id);
      }
    }

    /** The prompts of a turn one by one, up to the first that fails. */
    method SavePrompts(messages: seq<Msg>, model: string, ids: seq<int>, now: nat, luck: nat -> bool)
      returns (ok: bool, ghost steps: seq<Step>)
      requires store.Valid() && |ids| == |messages| + 1 && Fresh(store.chats, ids, 0)
      modifies this, store
      ensures store.Valid()
      ensures ok ==> steps == PromptSteps(messages, model, ids, now, luck, |messages|) && AllWork(steps)
      ensures !ok ==> UpToFailure(steps, PromptSteps(messages, model, ids, now, luck, |messages|), false)
      ensures Reached(old(Contents()), Contents(), user, steps) && Sane(old(Contents()), Contents(), user, steps)
      ensures ok ==> Fresh(store.chats, ids, |messages|)
      ensures ok && (HasPrompt(messages, |messages|) || old(sessionStarted)) ==> sessionStarted
      ensures sessionId == old(sessionId)
      ensures ok ==> PromptsHeld(store.chats, user, old(sessionId), messages, model, ids, |messages|)
      ensures FromIds(store.chats, old(store.chats), ids)
    {
      ghost var was := Contents();
      steps := [];
      var i := 0;
      while i < |messages|
        invariant 0 <= i <= |messages| && store.Valid()
        invariant steps == PromptSteps(messages, model, ids, now, luck, i) && AllWork(steps)
        invariant Reached(was, Contents(), user, steps) && Sane(was, Contents(), user, steps)
        invariant Fresh(store.chats, ids, i) && FromIds(store.chats, was.chats, ids)
        invariant was.repl.started || HasPrompt(messages, i) ==> sessionStarted
        invariant sessionId == old(sessionId)
        invariant PromptsHeld(store.chats, user, old(sessionId), messages, model, ids, i)
      {
        if messages[i].role.User? {
          ghost var step := Save(User, messages[i].content, ids[i], now, model, luck(i));
          SaneNext(was, Contents(), user, steps, step);
          PromptNext(messages, model, ids, now, luck, i, steps, step);
          ok := SaveRow(User, messages[i].content, model, ids[i], now, luck(i));
          steps := steps + [step];
          assert ids[i] in ids;
          if !ok {
            return;
          }
        }
        i := i + 1;
      }
      ok := true;
    }

    /** Saves the prompts of a turn and then the reply. The first write that fails ends it. */
    method SaveAgentSession(messages: seq<Msg>, reply: string, model: string, ids: seq<int>, now: nat,
                            luck: nat -> bool)
      returns (ok: bool, ghost steps: seq<Step>)
      requires store.Valid() && |ids| == |messages| + 1 && Fresh(store.chats, ids, 0)
      modifies this, store
      ensures store.Valid()
      ensures UpToFailure(steps, TurnSteps(messages, reply, model, ids, now, luck), ok)
      ensures Reached(old(Contents()), Contents(), user, steps)
      ensures Healthy(old(View())) ==> !AnyOrphan(old(Contents()), user, steps)
      ensures HasPrompt(messages, |messages|) || old(sessionStarted) ==> Sane(old(Contents()), Contents(), user, steps)
      ensures FromIds(store.chats, old(store.chats), ids)
      ensures ok ==> PromptsHeld(store.chats, user, old(sessionId), messages, model, ids, |messages|)
      ensures ok ==> Holds(store.chats, ids[|messages|], user, old(sessionId), Assistant, reply, model)
      ensures ok ==> lastChatId == Some(ids[|messages|]) && sessionId == old(sessionId)
    {
      ghost var was := Contents();
      ok, steps := SavePrompts(messages, model, ids, now, luck);
      if !ok {
        return;
      }
      ghost var step := Save(Assistant, reply, ids[|messages|], now, model, luck(|messages|));
      ReachedNext(was, Contents(), user, steps, step);
      if sessionStarted {
        SaneNext(was, Contents(), user, steps, step);
      }
      assert ids[|messages|] in ids;
      ok := SaveRow(Assistant, reply, model, ids[|messages|], now, luck(|messages|));
      steps := steps + [step];
    }

    /** Resumes a session from its last row. Without the session or a row of it the program ends. */
    method LoadSession(id: string, works: bool) returns (ok: bool)
      requires store.Valid()
      modifies this
      ensures Contents() == Next(old(Contents()), user, Resume(id, works))
      ensures ok <==> works && id != "" && id in store.sessions && exists k :: InSession(store.chats, id, k)
      ensures ok ==> sessionId == id && sessionStarted && lastChatId.Some? && IsLast(store.chats, id, lastChatId)
      ensures !ok ==> View() == old(View())
    {
      var rows := set k | k in store.chats && store.chats[k].sessionId == id;
      var ids := Sorted(rows);
      if !works || ids == [] || id !in store.sessions || id == "" {
        if works && ids == [] {
          NoRows(store.chats, id, ids);
        }
        return false;
      }
      LastRow(store.chats, id, ids);
      sessionId, lastChatId, sessionStarted := id, Some(ids[|ids| - 1]), true;
      ok := true;
    }
  }

  lemma NoRows(chats: Chats.ChatTable, session: string, ids: seq<int>)
    requires ids == Sorted(set k | k in chats && chats[k].sessionId == session) && ids == []
    ensures LastOf(chats, session).None?
  {
    forall k | k in chats ensures chats[k].sessionId != session {
      assert k !in ids;
    }
  }

  lemma LastRow(chats: Chats.ChatTable, session: string, ids: seq<int>)
    requires ids == Sorted(set k | k in chats && chats[k].sessionId == session) && ids != []
    ensures LastOf(chats, session) == Some(ids[|ids| - 1])
  {
    var top := ids[|ids| - 1];
    assert top in ids;
    var last := LastOf(chats, session);
    assert last.value in ids;
    var i :| 0 <= i < |ids| && ids[i] == last.value;
  }

  /** What happens at the prompt: a turn is saved, or a session resumed. */
  datatype Happening =
    | Turn(messages: seq<Msg>, reply: string, model: string, ids: seq<int>, now: nat, luck: nat -> bool)
    | Reopen(id: string, works: bool)

  predicate EachPrompts(hs: seq<Happening>) {
    forall i :: 0 <= i < |hs| && hs[i].Turn? ==>
      HasPrompt(hs[i].messages, |hs[i].messages|) && |hs[i].ids| == |hs[i].messages| + 1
  }

  ghost predicate IdsInOrder(hs: seq<Happening>) {
    && (forall i :: 0 <= i < |hs| && hs[i].Turn? ==> Increasing(hs[i].ids))
    && (forall i, j, a, b {:trigger hs[i], hs[j], a in hs[i].ids, b in hs[j].ids} ::
          (0 <= i < j < |hs| && hs[i].Turn? && hs[j].Turn? && a in hs[i].ids && b in hs[j].ids) ==> a < b)
  }

  ghost predicate FromTurns(chats: Chats.ChatTable, hs: seq<Happening>, n: nat)
    requires n <= |hs|
  {
    forall k :: k in chats ==> exists j :: 0 <= j < n && hs[j].Turn? && k in hs[j].ids
  }

  lemma NextIdsFresh(chats: Chats.ChatTable, hs: seq<Happening>, n: nat)
    requires n < |hs| && hs[n].Turn? && IdsInOrder(hs) && FromTurns(chats, hs, n)
    ensures Fresh(chats, hs[n].ids, 0)
  {
    forall k, i | k in chats && 0 <= i < |hs[n].ids| ensures k < hs[n].ids[i] {
      assert hs[n].ids[i] in hs[n].ids;
    }
  }

  ghost predicate InHand(s: State) {
    Good(s) && Healthy(s.repl) && Tracked(s) && AllHaveSessions(s)
  }

  lemma TurnInHand(was: State, now: State, user: string, steps: seq<Step>)
    requires InHand(was) && Reached(was, now, user, steps) && Sane(was, now, user, steps)
    ensures InHand(now)
  {
    RunKeeps(was, user, steps);
    SessionsExactly(was, user, steps);
  }

  lemma ResumeInHand(s: State, user: string, session: string, works: bool)
    requires InHand(s)
    ensures InHand(Next(s, user, Resume(session, works)))
  {
    StepKeeps(s, user, Resume(session, works));
    StepTracks(s, user, Resume(session, works));
  }

  /** Any conversation in which each turn has a prompt, with writes that fail anywhere and
      sessions resumed in between: every session in the store is one chain, and no row is
      without its session. */
  method Converse(user: string, sessionId: string, hs: seq<Happening>)
    returns (chats: Chats.ChatTable, sessions: Chats.SessionTable)
    requires EachPrompts(hs) && IdsInOrder(hs)
    ensures AllChained(chats)
    ensures forall id :: id in chats ==> chats[id].sessionId in sessions
  {
    var store := new Chats.Store();
    var session := new ReplSession(store, user, sessionId);
    var i := 0;
    while i < |hs|
      invariant 0 <= i <= |hs| && fresh(store) && fresh(session) && session.store == store && session.user == user
      invariant store.Valid() && InHand(session.Contents())
      invariant FromTurns(store.chats, hs, i)
    {
      ghost var was := session.Contents();
      match hs[i] {
        case Turn(messages, reply, model, ids, now, luck) =>
          NextIdsFresh(store.chats, hs, i);
          var ok;
          ghost var steps;
          ok, steps := session.SaveAgentSession(messages, reply, model, ids, now, luck);
          TurnInHand(was, session.Contents(), user, steps);
        case Reopen(id, works) =>
          ResumeInHand(was, user, id, works);
          var ok := session.LoadSession(id, works);
      }
      i := i + 1;
    }
    chats, sessions := store.chats, store.sessions;
  }
}
