/** Replication of chats between devices: every run of saves and syncs, with packets
    delayed, repeated, lost, or written only in part. */
module ChatSync {
  import opened Prelude
  import opened Chats

  /** Everything a device has saved, oldest first. It is history: no code reads it. */
  type Log = seq<Chat>

  /** A request carries the highest counter its asker holds of the author. Both kinds
      stay in the network for good, so either may be seen late, often or never. */
  datatype Packet =
    | Request(asker: string, author: string, last: int)
    | Reply(asker: string, author: string, last: int, delta: Delta)

  datatype System = System(nodes: map<string, Db>, logs: map<string, Log>, net: set<Packet>)

  datatype Event =
    | Saved(user: string, draft: Draft, id: int, now: nat)
    | SavedFirst(user: string, name: string, draft: Draft, id: int, now: nat)
    | SessionMade(user: string, session: Session)
    | SnapshotTaken(user: string, sessionId: string, snapshot: string)
    | Asked(asker: string, author: string)
    | Answered(request: Packet, delta: Delta)
    | Took(reply: Packet, c: nat, k: nat)
    | Failed

  // ---------------------------------------------------------------- steps

  ghost predicate Fresh(s: System, user: string, id: int) {
    && (forall u, i :: u in s.logs && 0 <= i < |s.logs[u]| ==> s.logs[u][i].id != id)
    && (user in s.logs ==> forall i :: 0 <= i < |s.logs[user]| ==> s.logs[user][i].id < id)
  }

  ghost predicate Enabled(s: System, e: Event) {
    match e
    case Saved(user, draft, id, now) => user in s.nodes && user in s.logs && Fresh(s, user, id)
    case SavedFirst(user, name, draft, id, now) => user in s.nodes && user in s.logs && Fresh(s, user, id)
    case SessionMade(user, session) => user in s.nodes
    case SnapshotTaken(user, sessionId, snapshot) => user in s.nodes && sessionId in s.nodes[user].sessions
    case Asked(asker, author) => asker in s.nodes && author in s.nodes
    case Answered(request, delta) =>
      request in s.net && request.Request? && request.author in s.nodes
      && IsDelta(s.nodes[request.author], request.author, request.last, delta)
    case Took(reply, c, k) =>
      reply in s.net && reply.Reply? && reply.asker in s.nodes
      && c <= |reply.delta.chats| && k <= |reply.delta.sessions|
    case Failed => true
  }

  ghost function SaveRow(s: System, user: string, draft: Draft, id: int, now: nat): System
    requires user in s.nodes && user in s.logs
  {
    var db := s.nodes[user];
    var row := NewRow(db.chats, user, draft, id, now);
    s.(nodes := s.nodes[user := db.(chats := db.chats[id := row])],
       logs := s.logs[user := s.logs[user] + [row]])
  }

  ghost function AddSession(s: System, user: string, session: Session): System
    requires user in s.nodes
  {
    var db := s.nodes[user];
    if session.id in db.sessions then s
    else s.(nodes := s.nodes[user := db.(sessions := db.sessions[session.id := session])])
  }

  ghost function After(s: System, e: Event): System
    requires Enabled(s, e)
  {
    match e
    case Saved(user, draft, id, now) => SaveRow(s, user, draft, id, now)
    case SavedFirst(user, name, draft, id, now) =>
      SaveRow(AddSession(s, user, Session(draft.sessionId, name, now, user, None)), user, draft, id, now)
    case SessionMade(user, session) => AddSession(s, user, session)
    case SnapshotTaken(user, sessionId, snapshot) =>
      var db := s.nodes[user];
      var session := db.sessions[sessionId].(snapshot := Some(snapshot));
      s.(nodes := s.nodes[user := db.(sessions := db.sessions[sessionId := session])])
    case Asked(asker, author) =>
      s.(net := s.net + {Request(asker, author, LastRowCounter(s.nodes[asker].chats, author))})
    case Answered(request, delta) =>
      s.(net := s.net + {Reply(request.asker, request.author, request.last, delta)})
    case Took(reply, c, k) =>
      s.(nodes := s.nodes[reply.asker := Applied(s.nodes[reply.asker], reply.delta, c, k)])
    case Failed => s
  }

  ghost predicate Start(s: System) {
    && s.nodes.Keys == s.logs.Keys
    && s.net == {}
    && (forall n :: n in s.nodes ==> s.nodes[n] == Db(map[], map[]))
    && (forall n :: n in s.logs ==> s.logs[n] == [])
  }

  ghost predicate Run(states: seq<System>, events: seq<Event>) {
    && |states| == |events| + 1
    && Start(states[0])
    && forall i :: 0 <= i < |events| ==> Enabled(states[i], events[i]) && states[i + 1] == After(states[i], events[i])
  }

  // ---------------------------------------------------------------- what every state keeps

  ghost predicate LogOk(user: string, log: Log) {
    && (forall i :: 0 <= i < |log| ==> log[i].userId == user && log[i].rowCounter == i + 1)
    && ById(log)
  }

  ghost predicate Disjoint(a: Log, b: Log) {
    forall i, j :: 0 <= i < |a| && 0 <= j < |b| ==> a[i].id != b[j].id
  }

  ghost predicate LogsOk(logs: map<string, Log>) {
    && (forall u {:trigger LogOk(u, logs[u])} :: u in logs ==> LogOk(u, logs[u]))
    && (forall u, v {:trigger Disjoint(logs[u], logs[v])} ::
          u in logs && v in logs && u != v ==> Disjoint(logs[u], logs[v]))
  }

  /** `row` stands where its counter says among the first `k` rows of the log. */
  ghost predicate Covered(log: Log, k: int, id: int, row: Chat) {
    row.id == id && 1 <= row.rowCounter <= k && row.rowCounter <= |log| && log[row.rowCounter - 1] == row
  }

  /** The rows of an author in a table are exactly the author's rows 1..k. */
  ghost predicate HoldsUpTo(chats: ChatTable, user: string, log: Log, k: int) {
    && 0 <= k <= |log|
    && (forall i :: 0 <= i < k ==> log[i].id in chats && chats[log[i].id] == log[i])
    && (forall id {:trigger Covered(log, k, id, chats[id])} ::
          id in chats && chats[id].userId == user ==> Covered(log, k, id, chats[id]))
  }

  ghost predicate TableOk(chats: ChatTable, logs: map<string, Log>) {
    && Keyed(chats)
    && (forall id {:trigger chats[id].userId in logs} :: id in chats ==> chats[id].userId in logs)
    && (forall u {:trigger HoldsUpTo(chats, u, logs[u], LastRowCounter(chats, u))} ::
          u in logs ==> HoldsUpTo(chats, u, logs[u], LastRowCounter(chats, u)))
  }

  /** `rows` are the author's rows after the first `last`, up to some later one. */
  ghost predicate Stretch(log: Log, last: int, rows: seq<Chat>) {
    && 0 <= last && last + |rows| <= |log|
    && forall i :: 0 <= i < |rows| ==> rows[i] == log[last + i]
  }

  ghost predicate PacketOk(s: System, p: Packet) {
    && p.asker in s.nodes && p.author in s.nodes && p.author in s.logs
    && 0 <= p.last <= LastRowCounter(s.nodes[p.asker].chats, p.author)
    && (p.Reply? ==> Stretch(s.logs[p.author], p.last, p.delta.chats))
  }

  ghost predicate NodeOk(s: System, n: string) {
    && n in s.nodes && n in s.logs
    && TableOk(s.nodes[n].chats, s.logs)
    && LastRowCounter(s.nodes[n].chats, n) == |s.logs[n]|
  }

  ghost predicate Inv(s: System) {
    && s.nodes.Keys == s.logs.Keys
    && LogsOk(s.logs)
    && (forall n {:trigger NodeOk(s, n)} :: n in s.nodes ==> NodeOk(s, n))
    && (forall p {:trigger PacketOk(s, p)} :: p in s.net ==> PacketOk(s, p))
  }

  // ---------------------------------------------------------------- lemmas on one table

  lemma {:induction false} ByIdUnique(a: seq<Chat>, b: seq<Chat>)
    requires ById(a) && ById(b)
    requires forall x :: x in a <==> x in b
    ensures a == b
  {
    assert |a| > 0 ==> a[0] in a && a[0] in b;
    assert |b| > 0 ==> b[0] in b && b[0] in a;
    if |a| > 0 {
      forall x ensures x in a[1..] <==> x in b[1..] {
        assert x in a[1..] <==> x in a && x != a[0];
        assert x in b[1..] <==> x in b && x != b[0];
      }
      ByIdUnique(a[1..], b[1..]);
      assert a == [a[0]] + a[1..] && b == [b[0]] + b[1..];
    }
  }

  /** Holding rows 1..k is the same as having k for the highest counter. */
  lemma CounterIsLength(chats: ChatTable, user: string, log: Log, k: int)
    requires LogOk(user, log) && HoldsUpTo(chats, user, log, k)
    ensures LastRowCounter(chats, user) == k
  {
    LastRowCounterMeaning(chats, user);
    if k > 0 {
      assert chats[log[k - 1].id].rowCounter == k;
    }
    assert forall id :: id in chats && chats[id].userId == user ==> Covered(log, k, id, chats[id]);
  }

  /** `order by id` above a counter is the tail of the log from that counter on. */
  lemma SelectIsTail(chats: ChatTable, user: string, log: Log, k: int, last: int)
    requires Keyed(chats) && LogOk(user, log) && HoldsUpTo(chats, user, log, k) && 0 <= last <= k
    ensures Select(chats, user, last) == log[last..k]
  {
    var rows, tail := Select(chats, user, last), log[last..k];
    SelectMeaning(chats, user, last);
    forall x ensures x in rows <==> x in tail {
      if x in rows {
        var n :| 0 <= n < |rows| && rows[n] == x;
        InTail(chats, user, log, k, last, x);
      } else if x in tail {
        FromTail(chats, user, log, k, last, x);
      }
    }
    TailById(log, last, k);
    ByIdUnique(rows, tail);
  }

  lemma TailById(log: Log, last: int, k: int)
    requires ById(log) && 0 <= last <= k <= |log|
    ensures ById(log[last..k])
  {
    assert forall i :: 0 <= i < k - last ==> log[last..k][i] == log[last + i];
  }

  lemma FromTail(chats: ChatTable, user: string, log: Log, k: int, last: int, x: Chat)
    requires LogOk(user, log) && HoldsUpTo(chats, user, log, k) && 0 <= last <= k && x in log[last..k]
    ensures x.id in chats && chats[x.id] == x && x.userId == user && x.rowCounter > last
  {
    var i :| 0 <= i < k - last && log[last..k][i] == x;
    assert log[last + i] == x;
  }

  lemma InTail(chats: ChatTable, user: string, log: Log, k: int, last: int, x: Chat)
    requires LogOk(user, log) && HoldsUpTo(chats, user, log, k) && 0 <= last <= k
    requires x.id in chats && chats[x.id] == x && x.userId == user && x.rowCounter > last
    ensures x in log[last..k]
  {
    assert Covered(log, k, x.id, chats[x.id]);
    assert log[last..k][x.rowCounter - 1 - last] == x;
  }

  lemma HeldIsLogged(chats: ChatTable, logs: map<string, Log>, id: int)
    requires LogsOk(logs) && TableOk(chats, logs) && id in chats
    ensures chats[id].userId in logs
    ensures HoldsUpTo(chats, chats[id].userId, logs[chats[id].userId], LastRowCounter(chats, chats[id].userId))
    ensures Covered(logs[chats[id].userId], LastRowCounter(chats, chats[id].userId), id, chats[id])
  {
    var author := chats[id].userId;
    assert chats[id].userId in logs;
    assert HoldsUpTo(chats, author, logs[author], LastRowCounter(chats, author));
    assert Covered(logs[author], LastRowCounter(chats, author), id, chats[id]);
  }

  /** A row of the log that is in the table is one of the rows the counter covers. */
  lemma HeldIsCovered(chats: ChatTable, logs: map<string, Log>, user: string, i: int)
    requires LogsOk(logs) && TableOk(chats, logs) && user in logs
    requires 0 <= i < |logs[user]| && logs[user][i].id in chats
    ensures i < LastRowCounter(chats, user) && chats[logs[user][i].id] == logs[user][i]
  {
    var id := logs[user][i].id;
    var author := chats[id].userId;
    var log := logs[author];
    HeldIsLogged(chats, logs, id);
    assert author != user ==> Disjoint(log, logs[user]);
    assert LogOk(user, logs[user]) && ById(logs[user]);
  }

  lemma OwnRow(chats: ChatTable, user: string, log: Log, k: int)
    requires LogOk(user, log) && HoldsUpTo(chats, user, log, k) && k < |log| && log[k].id !in chats
    ensures HoldsUpTo(chats[log[k].id := log[k]], user, log, k + 1)
    ensures LastRowCounter(chats[log[k].id := log[k]], user) == k + 1
  {
    var next := chats[log[k].id := log[k]];
    forall id | id in next && next[id].userId == user ensures Covered(log, k + 1, id, next[id]) {
      assert id != log[k].id ==> Covered(log, k, id, chats[id]);
    }
    CounterIsLength(next, user, log, k + 1);
  }

  lemma PeerRow(chats: ChatTable, user: string, log: Log, k: int, row: Chat)
    requires LogOk(user, log) && HoldsUpTo(chats, user, log, k) && row.userId != user && row.id !in chats
    ensures HoldsUpTo(chats[row.id := row], user, log, k)
    ensures LastRowCounter(chats[row.id := row], user) == LastRowCounter(chats, user)
  {
    var next := chats[row.id := row];
    forall id | id in next && next[id].userId == user ensures Covered(log, k, id, next[id]) {
      assert Covered(log, k, id, chats[id]);
    }
    CounterIsLength(chats, user, log, k);
    CounterIsLength(next, user, log, k);
  }

  function Max(a: int, b: int): int {
    if a > b then a else b
  }

  /** `next` is a table in order that has caught up with an author, and lost nothing. */
  ghost predicate CaughtUp(chats: ChatTable, next: ChatTable, logs: map<string, Log>, user: string, m: int) {
    && TableOk(next, logs)
    && LastRowCounter(next, user) == Max(m, LastRowCounter(chats, user))
    && forall v :: v in logs && v != user ==> LastRowCounter(next, v) == LastRowCounter(chats, v)
  }

  lemma CoveredIsHeld(chats: ChatTable, logs: map<string, Log>, user: string, i: int)
    requires TableOk(chats, logs) && user in logs && 0 <= i < LastRowCounter(chats, user)
    ensures i < |logs[user]| && logs[user][i].id in chats
  {
    assert HoldsUpTo(chats, user, logs[user], LastRowCounter(chats, user));
  }

  /** Writing the next row of an author's log, or one already held. */
  lemma OneMore(chats: ChatTable, logs: map<string, Log>, user: string, i: int)
    requires LogsOk(logs) && TableOk(chats, logs) && user in logs
    requires 0 <= i <= LastRowCounter(chats, user) && i < |logs[user]|
    ensures CaughtUp(chats, InsertChat(chats, logs[user][i]), logs, user, i + 1)
  {
    var row := logs[user][i];
    assert LogOk(user, logs[user]) && HoldsUpTo(chats, user, logs[user], LastRowCounter(chats, user));
    if row.id in chats {
      HeldIsCovered(chats, logs, user, i);
    } else {
      OwnRow(chats, user, logs[user], i);
      forall v | v in logs && v != user
        ensures HoldsUpTo(chats[row.id := row], v, logs[v], LastRowCounter(chats, v))
        ensures LastRowCounter(chats[row.id := row], v) == LastRowCounter(chats, v)
      {
        assert LogOk(v, logs[v]) && HoldsUpTo(chats, v, logs[v], LastRowCounter(chats, v));
        PeerRow(chats, v, logs[v], LastRowCounter(chats, v), row);
      }
    }
  }

  lemma InsertUnfolds(chats: ChatTable, rows: seq<Chat>)
    ensures rows == [] ==> InsertChats(chats, rows) == chats
    ensures rows != [] ==>
              InsertChats(chats, rows) == InsertChat(InsertChats(chats, rows[..|rows| - 1]), rows[|rows| - 1])
  {
  }

  /** Writing a stretch of an author's log that starts no later than what is held. */
  lemma {:induction false} StretchExtends(chats: ChatTable, logs: map<string, Log>, user: string, last: int,
                                          rows: seq<Chat>)
    requires LogsOk(logs) && TableOk(chats, logs) && user in logs
    requires 0 <= last <= LastRowCounter(chats, user) && Stretch(logs[user], last, rows)
    ensures CaughtUp(chats, InsertChats(chats, rows), logs, user, last + |rows|)
  {
    InsertUnfolds(chats, rows);
    if rows != [] {
      var sofar := rows[..|rows| - 1];
      StretchExtends(chats, logs, user, last, sofar);
      OneMoreAfter(chats, InsertChats(chats, sofar), logs, user, last + |sofar|);
    }
  }

  lemma OneMoreAfter(chats: ChatTable, next: ChatTable, logs: map<string, Log>, user: string, i: int)
    requires LogsOk(logs) && user in logs && 0 <= i < |logs[user]|
    requires CaughtUp(chats, next, logs, user, i)
    ensures CaughtUp(chats, InsertChat(next, logs[user][i]), logs, user, i + 1)
  {
    OneMore(next, logs, user, i);
  }

  /** A peer's log growing leaves a table in order. */
  lemma LogGrows(chats: ChatTable, logs: map<string, Log>, user: string, row: Chat)
    requires TableOk(chats, logs) && user in logs
    ensures TableOk(chats, logs[user := logs[user] + [row]])
  {
    var grown := logs[user := logs[user] + [row]];
    forall u | u in grown ensures HoldsUpTo(chats, u, grown[u], LastRowCounter(chats, u)) {
      var k := LastRowCounter(chats, u);
      assert HoldsUpTo(chats, u, logs[u], k);
      assert forall i :: 0 <= i < k ==> grown[u][i] == logs[u][i];
      forall id | id in chats && chats[id].userId == u ensures Covered(grown[u], k, id, chats[id]) {
        assert Covered(logs[u], k, id, chats[id]);
      }
    }
  }

  // ---------------------------------------------------------------- every step keeps it

  lemma StartInv(s: System)
    requires Start(s)
    ensures Inv(s)
  {
    forall n | n in s.nodes ensures NodeOk(s, n) {
      forall u | u in s.logs ensures HoldsUpTo(map[], u, s.logs[u], LastRowCounter(map[], u)) {
        LastRowCounterMeaning(map[], u);
      }
    }
  }

  lemma SavedLogsOk(s: System, user: string, row: Chat)
    requires LogsOk(s.logs) && user in s.logs && Fresh(s, user, row.id)
    requires row.userId == user && row.rowCounter == |s.logs[user]| + 1
    ensures LogsOk(s.logs[user := s.logs[user] + [row]])
  {
    var grown := s.logs[user := s.logs[user] + [row]];
    forall u | u in grown ensures LogOk(u, grown[u]) {
      assert LogOk(u, s.logs[u]);
    }
    forall u, v | u in grown && v in grown && u != v ensures Disjoint(grown[u], grown[v]) {
      assert Disjoint(s.logs[u], s.logs[v]);
    }
  }

  lemma SavedOwnTable(chats: ChatTable, logs: map<string, Log>, user: string, row: Chat)
    requires LogsOk(logs) && TableOk(chats, logs) && user in logs && LastRowCounter(chats, user) == |logs[user]|
    requires row.userId == user && row.id !in chats
    requires LogsOk(logs[user := logs[user] + [row]])
    ensures CaughtUp(chats, chats[row.id := row], logs[user := logs[user] + [row]], user, |logs[user]| + 1)
  {
    var grown := logs[user := logs[user] + [row]];
    LogGrows(chats, logs, user, row);
    assert grown[user][|logs[user]|] == row;
    OneMore(chats, grown, user, |logs[user]|);
  }

  /** A node learns nothing it did not know, and forgets no counter: packets stay good. */
  lemma PacketStays(s: System, t: System, p: Packet)
    requires PacketOk(s, p)
    requires p.asker in t.nodes && p.author in t.nodes && p.author in t.logs
    requires LastRowCounter(s.nodes[p.asker].chats, p.author) <= LastRowCounter(t.nodes[p.asker].chats, p.author)
    requires s.logs[p.author] <= t.logs[p.author]
    ensures PacketOk(t, p)
  {
  }

  lemma SaveKeepsInv(s: System, user: string, draft: Draft, id: int, now: nat)
    requires Inv(s) && user in s.nodes && Fresh(s, user, id)
    ensures Inv(SaveRow(s, user, draft, id, now))
  {
    var t := SaveRow(s, user, draft, id, now);
    var chats := s.nodes[user].chats;
    var row := NewRow(chats, user, draft, id, now);
    assert NodeOk(s, user);
    SavedLogsOk(s, user, row);
    if id in chats {
      HeldIsLogged(chats, s.logs, id);
    }
    SavedOwnTable(chats, s.logs, user, row);
    forall n | n in t.nodes ensures NodeOk(t, n) {
      assert NodeOk(s, n);
      LogGrows(s.nodes[n].chats, s.logs, user, row);
    }
    forall p | p in t.net ensures PacketOk(t, p) {
      assert PacketOk(s, p);
      PacketStays(s, t, p);
    }
  }

  lemma SessionsKeepInv(s: System, t: System)
    requires Inv(s) && t.nodes.Keys == s.nodes.Keys && t.logs == s.logs && t.net == s.net
    requires forall n :: n in s.nodes ==> t.nodes[n].chats == s.nodes[n].chats
    ensures Inv(t)
  {
    forall n | n in t.nodes ensures NodeOk(t, n) {
      assert NodeOk(s, n);
    }
    forall p | p in t.net ensures PacketOk(t, p) {
      assert PacketOk(s, p);
      PacketStays(s, t, p);
    }
  }

  lemma AskKeepsInv(s: System, asker: string, author: string)
    requires Inv(s) && asker in s.nodes && author in s.nodes
    ensures Inv(After(s, Asked(asker, author)))
  {
    var t := After(s, Asked(asker, author));
    var chats := s.nodes[asker].chats;
    assert NodeOk(s, asker);
    assert HoldsUpTo(chats, author, s.logs[author], LastRowCounter(chats, author));
    forall n | n in t.nodes ensures NodeOk(t, n) {
      assert NodeOk(s, n);
    }
    forall p | p in t.net ensures PacketOk(t, p) {
      assert p in s.net ==> PacketOk(s, p);
    }
  }

  lemma AnswerKeepsInv(s: System, request: Packet, delta: Delta)
    requires Inv(s) && Enabled(s, Answered(request, delta))
    ensures Inv(After(s, Answered(request, delta)))
  {
    var t := After(s, Answered(request, delta));
    assert PacketOk(s, request);
    assert NodeOk(s, request.author) && NodeOk(s, request.asker);
    var user, chats, log := request.author, s.nodes[request.author].chats, s.logs[request.author];
    assert LogOk(user, log);
    assert HoldsUpTo(chats, user, log, LastRowCounter(chats, user));
    var held := s.nodes[request.asker].chats;
    assert HoldsUpTo(held, user, log, LastRowCounter(held, user));
    SelectIsStretch(chats, user, log, request.last);
    forall n | n in t.nodes ensures NodeOk(t, n) {
      assert NodeOk(s, n);
    }
    forall p | p in t.net ensures PacketOk(t, p) {
      assert p in s.net ==> PacketOk(s, p);
    }
  }

  lemma TakeKeepsInv(s: System, reply: Packet, c: nat, k: nat)
    requires Inv(s) && Enabled(s, Took(reply, c, k))
    ensures Inv(After(s, Took(reply, c, k)))
  {
    var t := After(s, Took(reply, c, k));
    var asker, user := reply.asker, reply.author;
    var rows := reply.delta.chats[..c];
    assert PacketOk(s, reply) && NodeOk(s, asker);
    assert Stretch(s.logs[user], reply.last, rows);
    var before, after := s.nodes[asker].chats, t.nodes[asker].chats;
    StretchExtends(before, s.logs, user, reply.last, rows);
    assert CaughtUp(before, after, s.logs, user, reply.last + |rows|);
    forall n | n in t.nodes ensures NodeOk(t, n) {
      assert NodeOk(s, n);
      if n == asker && user == asker {
        assert |rows| == 0 || reply.last + |rows| <= |s.logs[user]|;
      }
    }
    forall p | p in t.net ensures PacketOk(t, p) {
      assert PacketOk(s, p);
      PacketStays(s, t, p);
    }
  }

  lemma StepKeepsInv(s: System, e: Event)
    requires Inv(s) && Enabled(s, e)
    ensures Inv(After(s, e))
  {
    match e
    case Saved(user, draft, id, now) => SaveKeepsInv(s, user, draft, id, now);
    case SavedFirst(user, name, draft, id, now) =>
      var t := AddSession(s, user, Session(draft.sessionId, name, now, user, None));
      SessionsKeepInv(s, t);
      SaveKeepsInv(t, user, draft, id, now);
    case SessionMade(user, session) => SessionsKeepInv(s, After(s, e));
    case SnapshotTaken(user, sessionId, snapshot) => SessionsKeepInv(s, After(s, e));
    case Asked(asker, author) => AskKeepsInv(s, asker, author);
    case Answered(request, delta) => AnswerKeepsInv(s, request, delta);
    case Took(reply, c, k) => TakeKeepsInv(s, reply, c, k);
    case Failed =>
  }

  lemma {:induction false} RunKeepsInv(states: seq<System>, events: seq<Event>, i: nat)
    requires Run(states, events) && i < |states|
    ensures Inv(states[i])
  {
    if i == 0 {
      StartInv(states[0]);
    } else {
      RunKeepsInv(states, events, i - 1);
      StepKeepsInv(states[i - 1], events[i - 1]);
    }
  }

  // ---------------------------------------------------------------- main results

  /** In every state of every run, a device's rows of an author are exactly the first k
      rows that author ever saved, where k is the counter the device asks with. */
  lemma NoRowSkipped(states: seq<System>, events: seq<Event>, i: nat, node: string, author: string)
    requires Run(states, events) && i < |states| && node in states[i].nodes && author in states[i].nodes
    ensures author in states[i].logs && LogOk(author, states[i].logs[author])
    ensures HoldsUpTo(states[i].nodes[node].chats, author, states[i].logs[author],
                      LastRowCounter(states[i].nodes[node].chats, author))
    ensures node == author ==>
              LastRowCounter(states[i].nodes[node].chats, author) == |states[i].logs[author]|
  {
    RunKeepsInv(states, events, i);
    assert NodeOk(states[i], node);
  }

  /** An id found on two devices stands for the same row on both. */
  lemma SameIdSameRow(states: seq<System>, events: seq<Event>, i: nat, a: string, b: string, id: int)
    requires Run(states, events) && i < |states| && a in states[i].nodes && b in states[i].nodes
    requires id in states[i].nodes[a].chats && id in states[i].nodes[b].chats
    ensures states[i].nodes[a].chats[id] == states[i].nodes[b].chats[id]
  {
    var s := states[i];
    RunKeepsInv(states, events, i);
    assert NodeOk(s, a) && NodeOk(s, b);
    var chats := s.nodes[b].chats;
    var author := chats[id].userId;
    HeldIsLogged(chats, s.logs, id);
    HeldIsCovered(s.nodes[a].chats, s.logs, author, chats[id].rowCounter - 1);
  }

  // ---------------------------------------------------------------- what was saved is what is held

  predicate Saves(e: Event) {
    e.Saved? || e.SavedFirst?
  }

  /** The row holds what the user had saved. */
  predicate IsRowOf(row: Chat, e: Event)
    requires Saves(e)
  {
    && row.id == e.id && row.userId == e.user && row.content == e.draft.input && row.modelName == e.draft.model
    && row.role == e.draft.role && row.contextId == e.draft.parentChatId && row.sessionId == e.draft.sessionId
    && row.responseId == None && row.createdAt == e.now && row.updatedAt == e.now
  }

  lemma {:induction false} LogsGrow(states: seq<System>, events: seq<Event>, i: nat, j: nat, user: string)
    requires Run(states, events) && i <= j < |states| && user in states[i].logs
    ensures user in states[j].logs && states[i].logs[user] <= states[j].logs[user]
    decreases j
  {
    if i < j {
      LogsGrow(states, events, i, j - 1, user);
      assert states[j] == After(states[j - 1], events[j - 1]);
    }
  }

  lemma SavedIsLogged(states: seq<System>, events: seq<Event>, i: nat)
    requires Run(states, events) && i < |events| && Saves(events[i])
    ensures var user := events[i].user;
            && user in states[i].logs && user in states[i + 1].logs
            && |states[i + 1].logs[user]| == |states[i].logs[user]| + 1
            && IsRowOf(states[i + 1].logs[user][|states[i].logs[user]|], events[i])
            && Fresh(states[i], user, events[i].id)
  {
    assert states[i + 1] == After(states[i], events[i]);
  }

  lemma HeldIsNotFresh(states: seq<System>, events: seq<Event>, j: nat, i: nat, node: string, id: int, user: string)
    requires Run(states, events) && j <= i < |states| && node in states[j].nodes && id in states[j].nodes[node].chats
    ensures !Fresh(states[i], user, id)
  {
    var chats := states[j].nodes[node].chats;
    RunKeepsInv(states, events, j);
    assert NodeOk(states[j], node);
    HeldIsLogged(chats, states[j].logs, id);
    LogsGrow(states, events, j, i, chats[id].userId);
    assert states[i].logs[chats[id].userId][chats[id].rowCounter - 1].id == id;
  }

  /** Whatever device holds the id of a saved row, at whatever time, holds what was saved. */
  lemma HeldAsSaved(states: seq<System>, events: seq<Event>, i: nat, j: nat, node: string)
    requires Run(states, events) && i < |events| && Saves(events[i]) && j < |states|
    requires node in states[j].nodes && events[i].id in states[j].nodes[node].chats
    ensures i < j && IsRowOf(states[j].nodes[node].chats[events[i].id], events[i])
  {
    var id, user, chats := events[i].id, events[i].user, states[j].nodes[node].chats;
    RunKeepsInv(states, events, j);
    assert NodeOk(states[j], node);
    SavedIsLogged(states, events, i);
    if i < j {
      LogsGrow(states, events, i + 1, j, user);
      HeldIsCovered(chats, states[j].logs, user, |states[i].logs[user]|);
    } else {
      HeldIsNotFresh(states, events, j, i, node, id, user);
    }
  }

  lemma {:induction false} LoggedWasSaved(states: seq<System>, events: seq<Event>, j: nat, user: string, k: nat)
    returns (i: nat)
    requires Run(states, events) && j < |states| && user in states[j].logs && k < |states[j].logs[user]|
    ensures i < j && Saves(events[i]) && events[i].user == user && IsRowOf(states[j].logs[user][k], events[i])
  {
    assert j > 0;
    assert states[j] == After(states[j - 1], events[j - 1]);
    if user in states[j - 1].logs && k < |states[j - 1].logs[user]| {
      LogsGrow(states, events, j - 1, j, user);
      i := LoggedWasSaved(states, events, j - 1, user, k);
    } else {
      i := j - 1;
    }
  }

  /** And every row a device holds is one its author saved. */
  lemma HeldWasSaved(states: seq<System>, events: seq<Event>, j: nat, node: string, id: int) returns (i: nat)
    requires Run(states, events) && j < |states| && node in states[j].nodes && id in states[j].nodes[node].chats
    ensures i < j && Saves(events[i]) && IsRowOf(states[j].nodes[node].chats[id], events[i])
  {
    var chats := states[j].nodes[node].chats;
    RunKeepsInv(states, events, j);
    assert NodeOk(states[j], node);
    HeldIsLogged(chats, states[j].logs, id);
    i := LoggedWasSaved(states, events, j, chats[id].userId, chats[id].rowCounter - 1);
  }

  /** The event made this session, whatever was done to its snapshot since. */
  predicate Makes(e: Event, id: string, session: Session) {
    match e
    case SavedFirst(user, name, draft, _, now) =>
      id == session.id == draft.sessionId && session.name == name && session.createdAt == now
      && session.creatorId == user
    case SessionMade(_, made) =>
      id == session.id == made.id && session.name == made.name && session.createdAt == made.createdAt
      && session.creatorId == made.creatorId
    case _ => false
  }

  ghost predicate Made(events: seq<Event>, j: nat, id: string, session: Session) {
    exists i :: 0 <= i < j <= |events| && Makes(events[i], id, session)
  }

  ghost predicate AllMade(events: seq<Event>, j: nat, sessions: SessionTable) {
    forall id :: id in sessions ==> Made(events, j, id, sessions[id])
  }

  ghost predicate SentMade(events: seq<Event>, j: nat, sent: seq<Session>) {
    forall k :: 0 <= k < |sent| ==> Made(events, j, sent[k].id, sent[k])
  }

  ghost predicate SessionsMade(s: System, events: seq<Event>, j: nat) {
    && (forall n :: n in s.nodes ==> AllMade(events, j, s.nodes[n].sessions))
    && (forall p :: p in s.net && p.Reply? ==> SentMade(events, j, p.delta.sessions))
  }

  lemma MadeStays(s: System, events: seq<Event>, j: nat)
    requires SessionsMade(s, events, j) && j < |events|
    ensures SessionsMade(s, events, j + 1)
  {
    forall n | n in s.nodes ensures AllMade(events, j + 1, s.nodes[n].sessions) {
      forall id | id in s.nodes[n].sessions ensures Made(events, j + 1, id, s.nodes[n].sessions[id]) {
        assert Made(events, j, id, s.nodes[n].sessions[id]);
      }
    }
    forall p | p in s.net && p.Reply? ensures SentMade(events, j + 1, p.delta.sessions) {
      forall k | 0 <= k < |p.delta.sessions|
        ensures Made(events, j + 1, p.delta.sessions[k].id, p.delta.sessions[k])
      {
        assert Made(events, j, p.delta.sessions[k].id, p.delta.sessions[k]);
      }
    }
  }

  lemma TakenMade(events: seq<Event>, j: nat, sessions: SessionTable, sent: seq<Session>)
    requires AllMade(events, j, sessions) && SentMade(events, j, sent)
    ensures AllMade(events, j, InsertSessions(sessions, sent))
  {
    var all := InsertSessions(sessions, sent);
    InsertSessionsMeaning(sessions, sent);
    forall id | id in all ensures Made(events, j, id, all[id]) {
      if id in sessions {
        assert Made(events, j, id, sessions[id]);
      } else {
        var i := NewSession(sessions, sent, id);
        assert Made(events, j, sent[i].id, sent[i]);
        var k :| 0 <= k < j <= |events| && Makes(events[k], id, sent[i]);
        assert Makes(events[k], id, all[id]);
      }
    }
  }

  lemma AddedMade(s: System, user: string, session: Session, events: seq<Event>, j: nat)
    requires SessionsMade(s, events, j) && user in s.nodes && Made(events, j, session.id, session)
    ensures SessionsMade(AddSession(s, user, session), events, j)
  {
  }

  lemma SnapshotMade(sessions: SessionTable, id: string, snapshot: string, events: seq<Event>, j: nat)
    requires AllMade(events, j, sessions) && id in sessions
    ensures AllMade(events, j, sessions[id := sessions[id].(snapshot := Some(snapshot))])
  {
    assert Made(events, j, id, sessions[id]);
    var i :| 0 <= i < j <= |events| && Makes(events[i], id, sessions[id]);
    assert Makes(events[i], id, sessions[id].(snapshot := Some(snapshot)));
  }

  lemma StepMakes(s: System, events: seq<Event>, j: nat)
    requires SessionsMade(s, events, j) && j < |events| && Enabled(s, events[j])
    ensures SessionsMade(After(s, events[j]), events, j + 1)
  {
    MadeStays(s, events, j);
    match events[j]
    case Saved(user, draft, id, now) =>
    case SavedFirst(user, name, draft, id, now) =>
      var session := Session(draft.sessionId, name, now, user, None);
      assert Makes(events[j], session.id, session);
      AddedMade(s, user, session, events, j + 1);
    case SessionMade(user, session) =>
      assert Makes(events[j], session.id, session);
      AddedMade(s, user, session, events, j + 1);
    case SnapshotTaken(user, id, snapshot) => SnapshotMade(s.nodes[user].sessions, id, snapshot, events, j + 1);
    case Asked(asker, author) =>
    case Answered(request, delta) =>
      assert AllMade(events, j + 1, s.nodes[request.author].sessions);
    case Took(reply, c, k) =>
      assert SentMade(events, j + 1, reply.delta.sessions);
      TakenMade(events, j + 1, s.nodes[reply.asker].sessions, reply.delta.sessions[..k]);
    case Failed =>
  }

  /** Every session a device holds has the name, the time and the creator it was made with,
      by whoever made it. */
  lemma {:induction false} HeldWasMade(states: seq<System>, events: seq<Event>, j: nat)
    requires Run(states, events) && j < |states|
    ensures SessionsMade(states[j], events, j)
  {
    if j > 0 {
      HeldWasMade(states, events, j - 1);
      StepMakes(states[j - 1], events, j - 1);
    }
  }

  // ---------------------------------------------------------------- two devices

  /** Rows of one author in one table. */
  function RowsOf(chats: ChatTable, user: string): ChatTable {
    map id | id in chats && chats[id].userId == user :: chats[id]
  }

  lemma SamePrefixSameRows(a: ChatTable, b: ChatTable, logs: map<string, Log>, user: string)
    requires LogsOk(logs) && TableOk(a, logs) && TableOk(b, logs) && user in logs
    requires LastRowCounter(a, user) == LastRowCounter(b, user)
    ensures RowsOf(a, user) == RowsOf(b, user)
  {
    InOther(a, b, logs, user);
    InOther(b, a, logs, user);
    forall id ensures id in RowsOf(a, user) <==> id in RowsOf(b, user)
              ensures id in RowsOf(a, user) ==> RowsOf(a, user)[id] == RowsOf(b, user)[id]
    {
      if id in a && a[id].userId == user {
        assert b[id] == a[id];
      }
      if id in b && b[id].userId == user {
        assert a[id] == b[id];
      }
    }
  }

  lemma InOther(a: ChatTable, b: ChatTable, logs: map<string, Log>, user: string)
    requires LogsOk(logs) && TableOk(a, logs) && TableOk(b, logs) && user in logs
    requires LastRowCounter(a, user) <= LastRowCounter(b, user)
    ensures forall id :: id in a && a[id].userId == user ==> id in b && b[id] == a[id]
  {
    assert HoldsUpTo(b, user, logs[user], LastRowCounter(b, user));
    forall id | id in a && a[id].userId == user ensures id in b && b[id] == a[id] {
      HeldIsLogged(a, logs, id);
    }
  }

  /** One exchange in both directions without write errors: `a` asks, `b` answers and asks
      back, `a` answers. Both then hold the same rows of both authors, and all of them. */
  lemma ExchangeConverges(states: seq<System>, events: seq<Event>, i: nat, a: string, b: string,
                          fromB: Delta, fromA: Delta)
    requires Run(states, events) && i < |states| && a in states[i].nodes && b in states[i].nodes
    requires IsDelta(states[i].nodes[b], b, LastRowCounter(states[i].nodes[a].chats, b), fromB)
    requires IsDelta(Applied(states[i].nodes[a], fromB, |fromB.chats|, |fromB.sessions|), a,
                     LastRowCounter(states[i].nodes[b].chats, a), fromA)
    ensures var s := states[i];
            var afterA := Applied(s.nodes[a], fromB, |fromB.chats|, |fromB.sessions|).chats;
            var afterB := Applied(s.nodes[b], fromA, |fromA.chats|, |fromA.sessions|).chats;
            && RowsOf(afterA, a) == RowsOf(afterB, a) == RowsOf(s.nodes[a].chats, a)
            && RowsOf(afterA, b) == RowsOf(afterB, b) == RowsOf(s.nodes[b].chats, b)
  {
    var s := states[i];
    RunKeepsInv(states, events, i);
    assert NodeOk(s, a) && NodeOk(s, b);
    var beforeA, beforeB := s.nodes[a].chats, s.nodes[b].chats;
    assert fromB.chats[..|fromB.chats|] == fromB.chats && fromA.chats[..|fromA.chats|] == fromA.chats;
    BothWays(beforeA, beforeB, s.logs, a, b);
  }

  lemma BothWays(beforeA: ChatTable, beforeB: ChatTable, logs: map<string, Log>, a: string, b: string)
    requires LogsOk(logs) && TableOk(beforeA, logs) && TableOk(beforeB, logs) && a in logs && b in logs
    requires LastRowCounter(beforeA, a) == |logs[a]| && LastRowCounter(beforeB, b) == |logs[b]|
    ensures var afterA := InsertChats(beforeA, Select(beforeB, b, LastRowCounter(beforeA, b)));
            var afterB := InsertChats(beforeB, Select(afterA, a, LastRowCounter(beforeB, a)));
            && RowsOf(afterA, a) == RowsOf(afterB, a) == RowsOf(beforeA, a)
            && RowsOf(afterA, b) == RowsOf(afterB, b) == RowsOf(beforeB, b)
  {
    var afterA := InsertChats(beforeA, Select(beforeB, b, LastRowCounter(beforeA, b)));
    var afterB := InsertChats(beforeB, Select(afterA, a, LastRowCounter(beforeB, a)));
    CatchUp(beforeA, beforeB, logs, b);
    CounterBound(beforeA, logs, b);
    CatchUp(beforeB, afterA, logs, a);
    CounterBound(beforeB, logs, a);
    SamePrefixSameRows(afterA, afterB, logs, a);
    SamePrefixSameRows(afterA, afterB, logs, b);
    SamePrefixSameRows(afterA, beforeA, logs, a);
    SamePrefixSameRows(afterA, beforeB, logs, b);
  }

  lemma CounterBound(chats: ChatTable, logs: map<string, Log>, user: string)
    requires TableOk(chats, logs) && user in logs
    ensures 0 <= LastRowCounter(chats, user) <= |logs[user]|
  {
    assert HoldsUpTo(chats, user, logs[user], LastRowCounter(chats, user));
  }

  /** Writing everything an author's own device has above what is held. */
  lemma CatchUp(chats: ChatTable, own: ChatTable, logs: map<string, Log>, user: string)
    requires LogsOk(logs) && TableOk(chats, logs) && TableOk(own, logs) && user in logs
    requires LastRowCounter(own, user) == |logs[user]|
    ensures CaughtUp(chats, InsertChats(chats, Select(own, user, LastRowCounter(chats, user))), logs, user,
                     |logs[user]|)
  {
    var last := LastRowCounter(chats, user);
    assert LogOk(user, logs[user]);
    assert HoldsUpTo(own, user, logs[user], |logs[user]|) && HoldsUpTo(chats, user, logs[user], last);
    SelectIsStretch(own, user, logs[user], last);
    StretchExtends(chats, logs, user, last, Select(own, user, last));
  }

  lemma SelectIsStretch(own: ChatTable, user: string, log: Log, last: int)
    requires Keyed(own) && LogOk(user, log) && HoldsUpTo(own, user, log, |log|) && 0 <= last <= |log|
    ensures Stretch(log, last, Select(own, user, last)) && last + |Select(own, user, last)| == |log|
  {
    SelectIsTail(own, user, log, |log|, last);
  }

  /** Any two deltas ever sent to a device may be written in either order. */
  lemma RepliesCommute(states: seq<System>, events: seq<Event>, i: nat, p: Packet, q: Packet)
    requires Run(states, events) && i < |states|
    requires p in states[i].net && q in states[i].net && p.Reply? && q.Reply?
    ensures forall chats :: (InsertChats(InsertChats(chats, p.delta.chats), q.delta.chats)
                          == InsertChats(InsertChats(chats, q.delta.chats), p.delta.chats))
  {
    var s := states[i];
    RunKeepsInv(states, events, i);
    assert PacketOk(s, p) && PacketOk(s, q);
    var a, b := p.delta.chats, q.delta.chats;
    forall x, y | x in a && y in b && x.id == y.id ensures x == y {
      var n :| 0 <= n < |a| && a[n] == x;
      var m :| 0 <= m < |b| && b[m] == y;
      SameRow(s.logs, p.author, p.last + n, q.author, q.last + m);
    }
    forall chats
      ensures InsertChats(InsertChats(chats, a), b) == InsertChats(InsertChats(chats, b), a)
    {
      ApplyOrder(chats, a, b);
      assert forall id :: FirstWith(a, id).Some? ==> FirstWith(a, id).value in a;
      assert forall id :: FirstWith(b, id).Some? ==> FirstWith(b, id).value in b;
    }
  }

  lemma SameRow(logs: map<string, Log>, u: string, i: int, v: string, j: int)
    requires LogsOk(logs) && u in logs && v in logs && 0 <= i < |logs[u]| && 0 <= j < |logs[v]|
    requires logs[u][i].id == logs[v][j].id
    ensures logs[u][i] == logs[v][j]
  {
    assert u != v ==> Disjoint(logs[u], logs[v]);
    assert LogOk(u, logs[u]) && ById(logs[u]);
  }

  /** Part of a delta keeps a table gap-free exactly when the delta starts at or below the
      counter held, so a delta must go to the device that asked for it. */
  lemma GapExactly(chats: ChatTable, logs: map<string, Log>, user: string, last: int, rows: seq<Chat>)
    requires LogsOk(logs) && TableOk(chats, logs) && user in logs
    requires Stretch(logs[user], last, rows) && rows != []
    ensures TableOk(InsertChats(chats, rows), logs) <==> last <= LastRowCounter(chats, user)
  {
    var k := LastRowCounter(chats, user);
    var log, next := logs[user], InsertChats(chats, rows);
    assert LogOk(user, log) && HoldsUpTo(chats, user, log, k);
    if last <= k {
      StretchExtends(chats, logs, user, last, rows);
    } else {
      InsertChatsAt(chats, rows, log[k].id);
      InsertChatsAt(chats, rows, log[last].id);
      if log[k].id in chats {
        HeldIsCovered(chats, logs, user, k);
      }
      if log[last].id in chats {
        HeldIsCovered(chats, logs, user, last);
      }
      assert rows[0] == log[last];
      assert log[k].id !in next && log[last].id in next;
      if TableOk(next, logs) {
        HeldIsCovered(next, logs, user, last);
        CoveredIsHeld(next, logs, user, k);
      }
    }
  }

  // ---------------------------------------------------------------- sessions follow their rows

  /** No session lookup or write fails, and a device saves rows only into sessions it
      has. Chat batches may still be cut short anywhere. */
  ghost predicate Clean(s: System, e: Event) {
    && Enabled(s, e)
    && match e
       case Saved(user, draft, id, now) => draft.sessionId == "" || draft.sessionId in s.nodes[user].sessions
       case Answered(request, delta) =>
         SessionsComplete(delta.chats, s.nodes[request.author].sessions, delta.sessions)
       case Took(reply, c, k) => k == |reply.delta.sessions|
       case _ => true
  }

  ghost predicate CleanRun(states: seq<System>, events: seq<Event>) {
    Run(states, events) && forall i :: 0 <= i < |events| ==> Clean(states[i], events[i])
  }

  ghost predicate SessionsThere(db: Db) {
    forall id :: id in db.chats && db.chats[id].sessionId != "" ==> db.chats[id].sessionId in db.sessions
  }

  ghost predicate SessionsSent(delta: Delta) {
    forall i :: 0 <= i < |delta.chats| && delta.chats[i].sessionId != ""
      ==> exists j :: 0 <= j < |delta.sessions| && delta.sessions[j].id == delta.chats[i].sessionId
  }

  ghost predicate SessionsInv(s: System) {
    && (forall n :: n in s.nodes ==> SessionsThere(s.nodes[n]))
    && (forall p :: p in s.net && p.Reply? ==> SessionsSent(p.delta))
  }

  lemma AnswerSendsSessions(db: Db, user: string, last: int, delta: Delta)
    requires Keyed(db.chats) && SessionsThere(db) && IsDelta(db, user, last, delta)
    requires SessionsComplete(delta.chats, db.sessions, delta.sessions)
    ensures SessionsSent(delta)
  {
    SelectMeaning(db.chats, user, last);
  }

  lemma TakeKeepsSessions(db: Db, delta: Delta, c: nat)
    requires SessionsThere(db) && SessionsSent(delta) && c <= |delta.chats|
    ensures SessionsThere(Applied(db, delta, c, |delta.sessions|))
  {
    var rows := delta.chats[..c];
    var t := Applied(db, delta, c, |delta.sessions|);
    assert delta.sessions[..|delta.sessions|] == delta.sessions;
    InsertSessionsMeaning(db.sessions, delta.sessions);
    forall id | id in t.chats && t.chats[id].sessionId != "" ensures t.chats[id].sessionId in t.sessions {
      InsertChatsAt(db.chats, rows, id);
      if id !in db.chats {
        var i :| 0 <= i < |rows| && rows[i] == FirstWith(rows, id).value;
        assert delta.chats[i] == t.chats[id];
      }
    }
  }

  lemma StepKeepsSessions(s: System, e: Event)
    requires Inv(s) && SessionsInv(s) && Clean(s, e)
    ensures SessionsInv(After(s, e))
  {
    match e
    case Answered(request, delta) =>
      assert NodeOk(s, request.author);
      AnswerSendsSessions(s.nodes[request.author], request.author, request.last, delta);
    case Took(reply, c, k) => TakeKeepsSessions(s.nodes[reply.asker], reply.delta, c);
    case _ =>
  }

  /** In a clean run every row with a session, on any device, has its session there. */
  lemma {:induction false} SessionsFollowRows(states: seq<System>, events: seq<Event>, i: nat)
    requires CleanRun(states, events) && i < |states|
    ensures SessionsInv(states[i])
  {
    if i > 0 {
      SessionsFollowRows(states, events, i - 1);
      RunKeepsInv(states, events, i - 1);
      StepKeepsSessions(states[i - 1], events[i - 1]);
    }
  }
}
