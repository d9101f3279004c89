/** The chat store of one device: its two tables, and what it sends to and takes from peers. */
module Chats {
  import opened Prelude
  import opened Roles

  /** A row of `chats`. Ids are ordered as the text of their UUIDv7 is. */
  datatype Chat = Chat(
    id: int,
    userId: string,
    content: string,
    responseId: Option<string>,
    role: Role,
    contextId: Option<int>,
    createdAt: nat,
    updatedAt: nat,
    rowCounter: int,
    sessionId: string,
    modelName: string)

  datatype Session = Session(
    id: string,
    name: string,
    createdAt: nat,
    creatorId: string,
    snapshot: Option<string>)

  /** What a caller of the store wants saved. */
  datatype Draft = Draft(
    input: string,
    sessionId: string,
    role: Role,
    parentChatId: Option<int>,
    model: string)

  datatype Delta = Delta(chats: seq<Chat>, sessions: seq<Session>)

  type ChatTable = map<int, Chat>
  type SessionTable = map<string, Session>

  /** The two tables as one value. */
  datatype Db = Db(chats: ChatTable, sessions: SessionTable)

  ghost predicate Keyed(chats: ChatTable) {
    forall id :: id in chats ==> chats[id].id == id
  }

  ghost predicate SessionsKeyed(sessions: SessionTable) {
    forall id :: id in sessions ==> sessions[id].id == id
  }

  /** The reader of a row knows only three of the five roles. */
  predicate Readable(role: Role) {
    role.System? || role.User? || role.Assistant?
  }

  /** Those are the roles whose stored text is one that parses. */
  lemma ReadableExactly(role: Role)
    ensures Readable(role) <==> RoleFromText(RoleText(role)).Some?
  {
    RoleReadBack(role);
  }

  // ---------------------------------------------------------------- row counters

  function Counters(chats: ChatTable, user: string): set<int> {
    set id | id in chats && chats[id].userId == user :: chats[id].rowCounter
  }

  /** The highest counter held of an author, 0 without rows. */
  function LastRowCounter(chats: ChatTable, user: string): int {
    var counters := Counters(chats, user);
    if counters == {} then 0
    else
      GreatestExists(counters);
      var m :| m in counters && forall x :: x in counters ==> x <= m;
      m
  }

  lemma LastRowCounterMeaning(chats: ChatTable, user: string)
    ensures forall id :: id in chats && chats[id].userId == user ==> chats[id].rowCounter <= LastRowCounter(chats, user)
    ensures (LastRowCounter(chats, user) == 0 && forall id :: id in chats ==> chats[id].userId != user)
         || (exists id :: id in chats && chats[id].userId == user
                          && chats[id].rowCounter == LastRowCounter(chats, user))
  {
    var counters := Counters(chats, user);
    assert forall id :: id in chats && chats[id].userId == user ==> chats[id].rowCounter in counters;
    if counters != {} {
      GreatestExists(counters);
    }
  }

  function NewRow(chats: ChatTable, user: string, draft: Draft, id: int, now: nat): Chat {
    Chat(id, user, draft.input, None, draft.role, draft.parentChatId, now, now,
         LastRowCounter(chats, user) + 1, draft.sessionId, draft.model)
  }

  // ---------------------------------------------------------------- deltas

  function Matching(chats: ChatTable, user: string, last: int): set<int> {
    set id | id in chats && chats[id].userId == user && chats[id].rowCounter > last
  }

  function Fetch(chats: ChatTable, ids: seq<int>): (rows: seq<Chat>)
    requires forall i :: 0 <= i < |ids| ==> ids[i] in chats
    ensures |rows| == |ids| && forall i :: 0 <= i < |ids| ==> rows[i] == chats[ids[i]]
  {
    seq(|ids|, i requires 0 <= i < |ids| => chats[ids[i]])
  }

  /** The author's rows above a counter, ordered by id. */
  function Select(chats: ChatTable, user: string, last: int): seq<Chat> {
    var ids := Sorted(Matching(chats, user, last));
    assert forall i :: 0 <= i < |ids| ==> ids[i] in ids;
    Fetch(chats, ids)
  }

  ghost predicate ById(rows: seq<Chat>) {
    forall i, j :: 0 <= i < j < |rows| ==> rows[i].id < rows[j].id
  }

  lemma SelectMeaning(chats: ChatTable, user: string, last: int)
    requires Keyed(chats)
    ensures ById(Select(chats, user, last))
    ensures forall i :: 0 <= i < |Select(chats, user, last)| ==>
              var row := Select(chats, user, last)[i];
              row.id in chats && chats[row.id] == row && row.userId == user && row.rowCounter > last
    ensures forall id :: id in chats && chats[id].userId == user && chats[id].rowCounter > last ==>
              chats[id] in Select(chats, user, last)
  {
    var ids := Sorted(Matching(chats, user, last));
    var rows := Select(chats, user, last);
    forall i | 0 <= i < |rows|
      ensures rows[i].id == ids[i] && ids[i] in Matching(chats, user, last) && rows[i] == chats[ids[i]]
    {
      assert ids[i] in ids;
    }
    forall id | id in chats && chats[id].userId == user && chats[id].rowCounter > last
      ensures chats[id] in rows
    {
      assert id in ids;
      var i :| 0 <= i < |ids| && ids[i] == id;
      assert rows[i] == chats[id];
    }
  }

  predicate AllReadable(rows: seq<Chat>) {
    forall i :: 0 <= i < |rows| ==> Readable(rows[i].role)
  }

  /** Sessions come from the table, one of each, and only those some row names. */
  ghost predicate SessionsOf(rows: seq<Chat>, table: SessionTable, sessions: seq<Session>) {
    && (forall s :: s in sessions ==>
          s.id in table && table[s.id] == s && exists i :: 0 <= i < |rows| && rows[i].sessionId == s.id && s.id != "")
    && (forall i, j :: 0 <= i < j < |sessions| ==> sessions[i].id != sessions[j].id)
  }

  /** Every session a row names is there, when the table has it. */
  ghost predicate SessionsComplete(rows: seq<Chat>, table: SessionTable, sessions: seq<Session>) {
    forall i :: 0 <= i < |rows| && rows[i].sessionId != "" && rows[i].sessionId in table
      ==> exists j :: 0 <= j < |sessions| && sessions[j].id == rows[i].sessionId
  }

  ghost predicate IsDelta(db: Db, user: string, last: int, delta: Delta) {
    && delta.chats == Select(db.chats, user, last)
    && AllReadable(delta.chats)
    && SessionsOf(delta.chats, db.sessions, delta.sessions)
  }

  /** The sessions found for the first rows. */
  ghost predicate Fetched(rows: seq<Chat>, n: nat, table: SessionTable, found: SessionTable)
    requires n <= |rows|
  {
    forall id :: id in found ==>
      id in table && found[id] == table[id] && id != "" && exists j :: 0 <= j < n && rows[j].sessionId == id
  }

  ghost predicate AllFetched(rows: seq<Chat>, n: nat, table: SessionTable, found: SessionTable)
    requires n <= |rows|
  {
    forall j :: 0 <= j < n && rows[j].sessionId != "" && rows[j].sessionId in table ==> rows[j].sessionId in found
  }

  lemma FetchedNext(rows: seq<Chat>, n: nat, table: SessionTable, found: SessionTable, more: SessionTable)
    requires n < |rows| && Fetched(rows, n, table, found)
    requires more == found || (rows[n].sessionId != "" && rows[n].sessionId in table
                               && more == found[rows[n].sessionId := table[rows[n].sessionId]])
    ensures Fetched(rows, n + 1, table, more)
    ensures (AllFetched(rows, n, table, found)
             && (rows[n].sessionId != "" && rows[n].sessionId in table ==> rows[n].sessionId in more)) ==>
              AllFetched(rows, n + 1, table, more)
  {
    forall id | id in more
      ensures id in table && more[id] == table[id] && id != ""
      ensures exists j :: 0 <= j < n + 1 && rows[j].sessionId == id
    {
      if id in found && id != rows[n].sessionId {
        var j :| 0 <= j < n && rows[j].sessionId == id;
      }
    }
  }

  lemma FetchedAll(rows: seq<Chat>, table: SessionTable, m: SessionTable, found: seq<Session>)
    requires Fetched(rows, |rows|, table, m) && SessionsKeyed(table)
    requires forall s :: s in found <==> s.id in m && m[s.id] == s
    requires forall i, j :: 0 <= i < j < |found| ==> found[i].id != found[j].id
    ensures SessionsOf(rows, table, found)
    ensures AllFetched(rows, |rows|, table, m) ==> SessionsComplete(rows, table, found)
  {
    if AllFetched(rows, |rows|, table, m) {
      forall i | 0 <= i < |rows| && rows[i].sessionId != "" && rows[i].sessionId in table
        ensures exists j :: 0 <= j < |found| && found[j].id == rows[i].sessionId
      {
        var s := m[rows[i].sessionId];
        assert s in found;
        var j :| 0 <= j < |found| && found[j] == s;
      }
    }
  }

  ghost predicate AllTrue(lookup: nat -> bool) {
    forall i: nat :: lookup(i)
  }

  // ---------------------------------------------------------------- applying a delta

  /** `insert` under a primary key: a row that is there stays, the new one is skipped. */
  function InsertChat(chats: ChatTable, row: Chat): ChatTable {
    if row.id in chats then chats else chats[row.id := row]
  }

  function InsertChats(chats: ChatTable, rows: seq<Chat>): ChatTable {
    if rows == [] then chats
    else InsertChat(InsertChats(chats, rows[..|rows| - 1]), rows[|rows| - 1])
  }

  /** The snapshot is local, a synced session comes without one. */
  function InsertSession(sessions: SessionTable, s: Session): SessionTable {
    if s.id in sessions then sessions else sessions[s.id := s.(snapshot := None)]
  }

  function InsertSessions(sessions: SessionTable, rows: seq<Session>): SessionTable {
    if rows == [] then sessions
    else InsertSession(InsertSessions(sessions, rows[..|rows| - 1]), rows[|rows| - 1])
  }

  /** A delta of which the first `c` rows and the first `k` sessions were written. */
  function Applied(db: Db, delta: Delta, c: nat, k: nat): Db
    requires c <= |delta.chats| && k <= |delta.sessions|
  {
    Db(InsertChats(db.chats, delta.chats[..c]), InsertSessions(db.sessions, delta.sessions[..k]))
  }

  /** The rows written before the first write that fails for another reason than a duplicate. */
  ghost predicate CutAt(fault: nat -> bool, n: nat, k: nat) {
    k <= n && (forall i: nat :: i < k ==> !fault(i)) && (k < n ==> fault(k))
  }

  /** The first row of an id in a batch. */
  function FirstWith(rows: seq<Chat>, id: int): (r: Option<Chat>)
    ensures r.None? <==> forall i :: 0 <= i < |rows| ==> rows[i].id != id
    ensures r.Some? ==> exists i :: 0 <= i < |rows| && rows[i] == r.value && rows[i].id == id
                                    && forall j :: 0 <= j < i ==> rows[j].id != id
  {
    if rows == [] then None
    else
      var init := rows[..|rows| - 1];
      var earlier := FirstWith(init, id);
      assert forall i :: 0 <= i < |init| ==> rows[i] == init[i];
      if earlier.Some? then earlier
      else if rows[|rows| - 1].id == id then Some(rows[|rows| - 1])
      else None
  }

  /** What inserting rows comes to: old rows win, then the first new row of an id. */
  lemma {:induction false} InsertChatsAt(chats: ChatTable, rows: seq<Chat>, id: int)
    ensures id in InsertChats(chats, rows) <==> id in chats || FirstWith(rows, id).Some?
    ensures id in chats ==> InsertChats(chats, rows)[id] == chats[id]
    ensures id !in chats && id in InsertChats(chats, rows) ==>
              Some(InsertChats(chats, rows)[id]) == FirstWith(rows, id)
  {
    if rows != [] {
      InsertChatsAt(chats, rows[..|rows| - 1], id);
    }
  }

  /** A session a peer sent, as it is stored: all but the snapshot. */
  predicate ComesAs(stored: Session, sent: Session) {
    && stored.id == sent.id && stored.name == sent.name && stored.createdAt == sent.createdAt
    && stored.creatorId == sent.creatorId && stored.snapshot == None
  }

  /** What inserting sessions comes to: old ones stay, and all that were sent are there. */
  lemma {:induction false} InsertSessionsMeaning(sessions: SessionTable, rows: seq<Session>)
    ensures forall id :: id in sessions ==>
              id in InsertSessions(sessions, rows) && InsertSessions(sessions, rows)[id] == sessions[id]
    ensures forall i :: 0 <= i < |rows| ==> rows[i].id in InsertSessions(sessions, rows)
    ensures SessionsKeyed(sessions) ==> SessionsKeyed(InsertSessions(sessions, rows))
  {
    if rows != [] {
      var init := rows[..|rows| - 1];
      InsertSessionsMeaning(sessions, init);
      forall i | 0 <= i < |rows| ensures rows[i].id in InsertSessions(sessions, rows) {
        assert i < |init| ==> init[i] == rows[i];
      }
    }
  }

  /** A new session is the first of its id that was sent, without its snapshot. */
  lemma {:induction false} NewSession(sessions: SessionTable, rows: seq<Session>, id: string) returns (i: nat)
    requires id in InsertSessions(sessions, rows) && id !in sessions
    ensures i < |rows| && rows[i].id == id && ComesAs(InsertSessions(sessions, rows)[id], rows[i])
    ensures forall j :: 0 <= j < i ==> rows[j].id != id
  {
    var init := rows[..|rows| - 1];
    if id in InsertSessions(sessions, init) {
      i := NewSession(sessions, init, id);
      assert forall j :: 0 <= j < |init| ==> init[j] == rows[j];
    } else {
      i := |rows| - 1;
      InsertSessionsMeaning(sessions, init);
      assert forall j :: 0 <= j < |init| ==> init[j] == rows[j];
    }
  }

  lemma {:induction false} InsertSessionsAgain(sessions: SessionTable, rows: seq<Session>)
    requires forall i :: 0 <= i < |rows| ==> rows[i].id in sessions
    ensures InsertSessions(sessions, rows) == sessions
  {
    if rows != [] {
      InsertSessionsAgain(sessions, rows[..|rows| - 1]);
    }
  }

  lemma {:induction false} InsertChatsAgain(chats: ChatTable, rows: seq<Chat>)
    requires forall i :: 0 <= i < |rows| ==> rows[i].id in chats
    ensures InsertChats(chats, rows) == chats
  {
    if rows != [] {
      InsertChatsAgain(chats, rows[..|rows| - 1]);
    }
  }

  /** A delta that arrives twice leaves what it left the first time, in both tables. */
  lemma ApplyIdempotent(db: Db, delta: Delta, c: nat, k: nat)
    requires c <= |delta.chats| && k <= |delta.sessions|
    ensures Applied(Applied(db, delta, c, k), delta, c, k) == Applied(db, delta, c, k)
  {
    forall i | 0 <= i < c ensures delta.chats[..c][i].id in InsertChats(db.chats, delta.chats[..c]) {
      InsertChatsAt(db.chats, delta.chats[..c], delta.chats[..c][i].id);
    }
    InsertSessionsMeaning(db.sessions, delta.sessions[..k]);
    InsertChatsAgain(InsertChats(db.chats, delta.chats[..c]), delta.chats[..c]);
    InsertSessionsAgain(InsertSessions(db.sessions, delta.sessions[..k]), delta.sessions[..k]);
  }

  /** Some id new to the table comes with one content in `a` and another in `b`. */
  ghost predicate Clash(chats: ChatTable, a: seq<Chat>, b: seq<Chat>) {
    exists id :: id !in chats && FirstWith(a, id).Some? && FirstWith(b, id).Some?
                 && FirstWith(a, id) != FirstWith(b, id)
  }

  lemma InsertTwiceAt(chats: ChatTable, a: seq<Chat>, b: seq<Chat>, id: int)
    ensures id in InsertChats(InsertChats(chats, a), b)
       <==> id in chats || FirstWith(a, id).Some? || FirstWith(b, id).Some?
    ensures id in chats ==> InsertChats(InsertChats(chats, a), b)[id] == chats[id]
    ensures id !in chats && FirstWith(a, id).Some? ==>
              InsertChats(InsertChats(chats, a), b)[id] == FirstWith(a, id).value
    ensures id !in chats && FirstWith(a, id).None? && FirstWith(b, id).Some? ==>
              InsertChats(InsertChats(chats, a), b)[id] == FirstWith(b, id).value
  {
    InsertChatsAt(chats, a, id);
    InsertChatsAt(InsertChats(chats, a), b, id);
  }

  /** Two batches may be applied in either order exactly when no new id comes with two contents. */
  lemma ApplyOrder(chats: ChatTable, a: seq<Chat>, b: seq<Chat>)
    ensures InsertChats(InsertChats(chats, a), b) == InsertChats(InsertChats(chats, b), a)
       <==> !Clash(chats, a, b)
  {
    var ab, ba := InsertChats(InsertChats(chats, a), b), InsertChats(InsertChats(chats, b), a);
    if Clash(chats, a, b) {
      var id :| id !in chats && FirstWith(a, id).Some? && FirstWith(b, id).Some?
                && FirstWith(a, id) != FirstWith(b, id);
      InsertTwiceAt(chats, a, b, id);
      InsertTwiceAt(chats, b, a, id);
      assert ab[id] != ba[id];
    } else {
      forall id ensures id in ab <==> id in ba
                ensures id in ab ==> ab[id] == ba[id]
      {
        InsertTwiceAt(chats, a, b, id);
        InsertTwiceAt(chats, b, a, id);
      }
      assert ab == ba;
    }
  }

  // ---------------------------------------------------------------- the store itself

  /** One connection to the chat database. A flag or a function of the row's
      position says which of SQLite's own operations fail. */
  class Store {
    var chats: ChatTable
    var sessions: SessionTable

    ghost predicate Valid()
      reads this
    {
      Keyed(chats) && SessionsKeyed(sessions)
    }

    ghost function Contents(): Db
      reads this
    {
      Db(chats, sessions)
    }

    constructor ()
      ensures Valid() && Contents() == Db(map[], map[])
    {
      chats, sessions := map[], map[];
    }

    method GetLastRowCounter(user: string) returns (c: int)
      ensures c == LastRowCounter(chats, user)
      ensures forall id :: id in chats && chats[id].userId == user ==> chats[id].rowCounter <= c
      ensures (c == 0 && forall id :: id in chats ==> chats[id].userId != user)
           || (exists id :: id in chats && chats[id].userId == user && chats[id].rowCounter == c)
    {
      LastRowCounterMeaning(chats, user);
      c := LastRowCounter(chats, user);
    }

    /** `id` is the fresh UUIDv7 and `writes` whether SQLite takes the row. */
    method SaveChat(user: string, draft: Draft, id: int, now: nat, writes: bool) returns (r: Result<Chat, string>)
      requires Valid()
      modifies this`chats
      ensures Valid()
      ensures r.Ok? <==> writes && id !in old(chats)
      ensures r.Ok? ==> r.value == NewRow(old(chats), user, draft, id, now) && chats == old(chats)[id := r.value]
      ensures r.Ok? ==>
                && r.value.id == id && r.value.userId == user && r.value.content == draft.input
                && r.value.responseId == None && r.value.role == draft.role && r.value.contextId == draft.parentChatId
                && r.value.createdAt == now && r.value.updatedAt == now
                && r.value.sessionId == draft.sessionId && r.value.modelName == draft.model
      ensures r.Ok? ==> forall k :: k in old(chats) && old(chats)[k].userId == user ==>
                                      old(chats)[k].rowCounter < r.value.rowCounter
      ensures r.Err? ==> chats == old(chats)
    {
      var counter := GetLastRowCounter(user);
      var chat := Chat(id, user, draft.input, None, draft.role, draft.parentChatId, now, now,
                       counter + 1, draft.sessionId, draft.model);
      if !writes || id in chats {
        return Err("insert failed");
      }
      chats := chats[id := chat];
      return Ok(chat);
    }

    /** A session that exists is kept as it is and returned. */
    method CreateSession(id: string, name: string, user: string, now: nat, writes: bool)
      returns (r: Result<Session, string>)
      requires Valid()
      modifies this`sessions
      ensures Valid()
      ensures r.Ok? <==> writes
      ensures r.Ok? ==> id in sessions && r.value == sessions[id]
      ensures r.Ok? && id !in old(sessions) ==> sessions == old(sessions)[id := Session(id, name, now, user, None)]
      ensures r.Err? || id in old(sessions) ==> sessions == old(sessions)
    {
      if !writes {
        return Err("insert failed");
      }
      if id !in sessions {
        sessions := sessions[id := Session(id, name, now, user, None)];
      }
      return Ok(sessions[id]);
    }

    /** Session and first row in one transaction: both are there or neither is new. */
    method SaveFirstChat(user: string, name: string, draft: Draft, id: int, now: nat,
                         sessionWrites: bool, chatWrites: bool, commits: bool) returns (r: Result<Chat, string>)
      requires Valid()
      modifies this
      ensures Valid()
      ensures r.Ok? <==> sessionWrites && chatWrites && commits && id !in old(chats)
      ensures r.Ok? ==> r.value == NewRow(old(chats), user, draft, id, now) && chats == old(chats)[id := r.value]
      ensures r.Ok? ==>
                && r.value.id == id && r.value.userId == user && r.value.content == draft.input
                && r.value.responseId == None && r.value.role == draft.role && r.value.contextId == draft.parentChatId
                && r.value.createdAt == now && r.value.updatedAt == now
                && r.value.sessionId == draft.sessionId && r.value.modelName == draft.model
      ensures r.Ok? ==> forall k :: k in old(chats) && old(chats)[k].userId == user ==>
                                      old(chats)[k].rowCounter < r.value.rowCounter
      ensures r.Ok? ==> draft.sessionId in sessions
      ensures r.Ok? && draft.sessionId !in old(sessions) ==>
                sessions == old(sessions)[draft.sessionId := Session(draft.sessionId, name, now, user, None)]
      ensures r.Ok? && draft.sessionId in old(sessions) ==> sessions == old(sessions)
      ensures r.Err? ==> Contents() == old(Contents())
    {
      var chatsBefore, sessionsBefore := chats, sessions;
      var session := CreateSession(draft.sessionId, name, user, now, sessionWrites);
      if session.Ok? {
        r := SaveChat(user, draft, id, now, chatWrites);
        if r.Ok? && !commits {
          r := Err("commit failed");
        }
      } else {
        r := Err("insert failed");
      }
      if r.Err? {
        chats, sessions := chatsBefore, sessionsBefore;
      }
    }

    /** The rows of an author above `last` with their sessions. `lookup(i)` says
        whether fetching the session of the i-th row works. */
    method GetDelta(user: string, last: int, lookup: nat -> bool) returns (r: Result<Delta, string>)
      requires Valid()
      ensures r.Ok? <==> AllReadable(Select(chats, user, last))
      ensures r.Ok? ==> IsDelta(Contents(), user, last, r.value)
      ensures r.Ok? && AllTrue(lookup) ==> SessionsComplete(r.value.chats, sessions, r.value.sessions)
    {
      var rows := Select(chats, user, last);
      var sessionMap: SessionTable := map[];
      var read: seq<Chat> := [];
      var i := 0;
      while i < |rows|
        invariant 0 <= i <= |rows| && read == rows[..i]
        invariant AllReadable(read)
        invariant Fetched(rows, i, sessions, sessionMap)
        invariant AllTrue(lookup) ==> AllFetched(rows, i, sessions, sessionMap)
      {
        var row := rows[i];
        ghost var before := sessionMap;
        if row.sessionId != "" && row.sessionId !in sessionMap && lookup(i) && row.sessionId in sessions {
          sessionMap := sessionMap[row.sessionId := sessions[row.sessionId]];
        }
        FetchedNext(rows, i, sessions, before, sessionMap);
        if !Readable(row.role) {
          return Err("Invalid Role");
        }
        read := read + [row];
        i := i + 1;
      }
      assert read == rows;
      var found := Values(sessionMap);
      FetchedAll(rows, sessions, sessionMap, found);
      r := Ok(Delta(read, found));
    }

    /** Writes a peer's delta in one transaction. A duplicate is skipped, any other
        fault ends that batch and what was written before it is committed. */
    method ApplyDelta(delta: Delta, chatFault: nat -> bool, sessionFault: nat -> bool, commits: bool)
      returns (ok: bool, ghost c: nat, ghost k: nat)
      requires Valid()
      modifies this
      ensures Valid()
      ensures ok == commits
      ensures CutAt(chatFault, |delta.chats|, c) && CutAt(sessionFault, |delta.sessions|, k)
      ensures Contents() == if ok then Applied(old(Contents()), delta, c, k) else old(Contents())
    {
      var newChats, newSessions := chats, sessions;
      var i := 0;
      while i < |delta.chats|
        invariant 0 <= i <= |delta.chats|
        invariant forall j: nat :: j < i ==> !chatFault(j)
        invariant newChats == InsertChats(chats, delta.chats[..i])
        invariant Keyed(newChats)
      {
        var chat := delta.chats[i];
        if chatFault(i) {
          break;
        }
        if chat.id !in newChats {
          newChats := newChats[chat.id := chat];
        }
        assert delta.chats[..i + 1][..i] == delta.chats[..i];
        i := i + 1;
      }
      c := i;
      var n := 0;
      while n < |delta.sessions|
        invariant 0 <= n <= |delta.sessions|
        invariant forall j: nat :: j < n ==> !sessionFault(j)
        invariant newSessions == InsertSessions(sessions, delta.sessions[..n])
        invariant SessionsKeyed(newSessions)
      {
        var session := delta.sessions[n];
        if sessionFault(n) {
          break;
        }
        if session.id !in newSessions {
          newSessions := newSessions[session.id := session.(snapshot := None)];
        }
        assert delta.sessions[..n + 1][..n] == delta.sessions[..n];
        n := n + 1;
      }
      k := n;
      ok := commits;
      if commits {
        chats, sessions := newChats, newSessions;
      }
    }
  }

  /** The values of a session map, in no particular order. */
  method Values(m: SessionTable) returns (r: seq<Session>)
    requires SessionsKeyed(m)
    ensures forall s :: s in r <==> s.id in m && m[s.id] == s
    ensures forall i, j :: 0 <= i < j < |r| ==> r[i].id != r[j].id
  {
    r := [];
    var left := m.Keys;
    while left != {}
      invariant left <= m.Keys
      invariant forall s :: s in r <==> s.id in m && m[s.id] == s && s.id !in left
      invariant forall i, j :: 0 <= i < j < |r| ==> r[i].id != r[j].id
      decreases |left|
    {
      var id :| id in left;
      assert forall i :: 0 <= i < |r| ==> r[i] in r && r[i].id != id;
      r := r + [m[id]];
      left := left - {id};
    }
  }
}
