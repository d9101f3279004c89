/** Delegation tokens between devices, and the local names of the peers they come from. */
module Tokens {
  import opened Prelude

  datatype Kind = Linked | Peer

  /** A signed delegation. Its cid is a hash of all of it. */
  datatype Delegation = Delegation(issuer: string, audience: string, kind: Kind, payload: string)

  datatype Token = Token(
    id: int,
    issuer: string,
    audience: string,
    kind: Kind,
    cid: string,
    token: string,
    nickname: Option<string>,
    createdAt: nat,
    updatedAt: nat)

  datatype User = User(userId: string, username: Option<string>, createdAt: nat, updatedAt: nat)

  type TokenTable = map<int, Token>
  type UserTable = map<string, User>

  predicate IsLink(t: Token, issuer: string, audience: string) {
    t.kind.Linked? && t.issuer == issuer && t.audience == audience
  }

  predicate HasLink(tokens: TokenTable, issuer: string, audience: string) {
    exists id :: id in tokens && IsLink(tokens[id], issuer, audience)
  }

  /** At most one linked token per issuer and audience. */
  ghost predicate OneLink(tokens: TokenTable) {
    forall a, b :: (a in tokens && b in tokens && tokens[a].kind.Linked?
                    && IsLink(tokens[b], tokens[a].issuer, tokens[a].audience)) ==> a == b
  }

  predicate Keyed(tokens: TokenTable) {
    forall id :: id in tokens ==> tokens[id].id == id
  }

  ghost predicate NamesUnique(users: UserTable) {
    && (forall u :: u in users ==> users[u].userId == u)
    && (forall a, b :: (a in users && b in users && users[a].username.Some? && users[a].username == users[b].username)
                       ==> a == b)
  }

  predicate Taken(users: UserTable, name: string, owner: string) {
    exists u :: u in users && u != owner && users[u].username == Some(name)
  }

  /** The name the query makes of a nickname: none if another user has it. */
  function Excluded(users: UserTable, peer: string, nickname: Option<string>): Option<string> {
    if nickname.Some? && Taken(users, nickname.value, peer) then None else nickname
  }

  /** The peer of a delegation gets the name, or keeps the one it has. */
  function PutPeer(users: UserTable, peer: string, nickname: Option<string>, now: nat): UserTable {
    var name := Excluded(users, peer, nickname);
    if peer !in users then users[peer := User(peer, name, now, now)]
    else if name.Some? then users[peer := users[peer].(username := name, updatedAt := now)]
    else users
  }

  lemma PutPeerKeeps(users: UserTable, peer: string, nickname: Option<string>, now: nat)
    requires NamesUnique(users)
    ensures NamesUnique(PutPeer(users, peer, nickname, now))
  {
    var name := Excluded(users, peer, nickname);
    assert forall u :: u in users && u != peer && name.Some? ==> users[u].username != name;
  }

  /** A nickname is given exactly when there is one and nobody else has it. Otherwise a peer
      that is known keeps its name, and no other user is touched. */
  lemma NicknameMeaning(users: UserTable, peer: string, nickname: Option<string>, now: nat)
    ensures var after := PutPeer(users, peer, nickname, now);
            && after.Keys == users.Keys + {peer}
            && (forall u :: u in users && u != peer ==> after[u] == users[u])
            && (nickname.Some? && !Taken(users, nickname.value, peer) ==> after[peer].username == nickname)
            && (nickname.None? || Taken(users, nickname.value, peer) ==>
                  if peer in users then after == users else after[peer].username == None)
            && (peer in users ==> after[peer].createdAt == users[peer].createdAt)
            && (peer !in users ==> after[peer].userId == peer && after[peer].createdAt == now)
            && (after[peer].updatedAt == now || (peer in users && after == users))
  {
  }

  /** What the conflict clause writes over a link that is there. */
  function Refreshed(old_: Token, t: Token): Token {
    old_.(token := t.token, updatedAt := t.updatedAt, cid := t.cid, nickname := t.nickname)
  }

  /** What the upsert makes of a token: a linked one takes the place of the link there is. */
  ghost predicate Saved(was: TokenTable, now: TokenTable, t: Token) {
    if t.kind.Linked? && HasLink(was, t.issuer, t.audience) then
      exists id :: id in was && IsLink(was[id], t.issuer, t.audience)
                   && now == was[id := Refreshed(was[id], t)]
    else now == was[t.id := t]
  }

  lemma SavedKeeps(was: TokenTable, now: TokenTable, t: Token)
    requires OneLink(was) && Saved(was, now, t) && t.id !in was
    ensures OneLink(now)
    ensures exists id :: id in now && now[id].cid == t.cid && now[id].token == t.token && now[id].issuer == t.issuer
                         && now[id].audience == t.audience && now[id].kind == t.kind
  {
    if t.kind.Linked? && HasLink(was, t.issuer, t.audience) {
      var id :| id in was && IsLink(was[id], t.issuer, t.audience)
                && now == was[id := Refreshed(was[id], t)];
      assert id in now && now[id].cid == t.cid;
    } else {
      assert t.id in now && now[t.id] == t;
      assert t.kind.Linked? ==> forall b :: b in was ==> !IsLink(was[b], t.issuer, t.audience);
    }
  }

  /** The table without the links from one to another. */
  function WithoutLinks(tokens: TokenTable, issuer: string, audience: string): TokenTable {
    map id | id in tokens && !IsLink(tokens[id], issuer, audience) :: tokens[id]
  }

  lemma NoLinkSame(tokens: TokenTable, issuer: string, audience: string)
    requires !HasLink(tokens, issuer, audience)
    ensures WithoutLinks(tokens, issuer, audience) == tokens
  {
    assert forall id :: id in tokens ==> !IsLink(tokens[id], issuer, audience);
  }

  function WithoutCid(tokens: TokenTable, cid: string): TokenTable {
    map id | id in tokens && tokens[id].cid != cid :: tokens[id]
  }

  /** Every row is of the delegation its cid names. */
  ghost predicate CidsTell(tokens: TokenTable, named: string -> Delegation) {
    forall id :: id in tokens ==>
      var d := named(tokens[id].cid);
      d.issuer == tokens[id].issuer && d.audience == tokens[id].audience && d.kind == tokens[id].kind
  }

  /** Deleting by cid removes the one link it was looked up for, and nothing else. */
  lemma CidIsLink(tokens: TokenTable, named: string -> Delegation, id: int)
    requires OneLink(tokens) && CidsTell(tokens, named) && id in tokens && tokens[id].kind.Linked?
    ensures WithoutCid(tokens, tokens[id].cid) == WithoutLinks(tokens, tokens[id].issuer, tokens[id].audience)
  {
    forall k | k in tokens
      ensures tokens[k].cid == tokens[id].cid <==> IsLink(tokens[k], tokens[id].issuer, tokens[id].audience)
    {
    }
  }

  class AccountStore {
    const self: string
    ghost const named: string -> Delegation
    var tokens: TokenTable
    var users: UserTable

    ghost predicate Valid()
      reads this
    {
      Keyed(tokens) && OneLink(tokens) && NamesUnique(users) && CidsTell(tokens, named)
    }

    constructor (self: string, name: Option<string>, now: nat, ghost named: string -> Delegation)
      ensures Valid() && tokens == map[] && users == map[self := User(self, name, now, now)]
      ensures this.self == self && this.named == named
    {
      this.self, this.named := self, named;
      tokens, users := map[], map[self := User(self, name, now, now)];
    }

    /** Upserts the token and its peer in one transaction. */
    method SaveToken(d: Delegation, cid: string, nickname: Option<string>, id: int, now: nat,
                     writes: bool, commits: bool)
      returns (r: Result<Token, string>)
      requires Valid() && named(cid) == d && id !in tokens
      modifies this
      ensures Valid()
      ensures r.Ok? <==> writes && commits
      ensures r.Err? ==> tokens == old(tokens) && users == old(users)
      ensures r.Ok? ==> Saved(old(tokens), tokens,
                              Token(id, d.issuer, d.audience, d.kind, cid, d.payload, nickname, now, now))
      ensures r.Ok? ==> users == PutPeer(old(users), if d.audience != self then d.audience else d.issuer, nickname, now)
      // the row that was written, and that it is the only one
      ensures r.Ok? ==> r.value.id in tokens && tokens[r.value.id] == r.value
      ensures r.Ok? ==> r.value.issuer == d.issuer && r.value.audience == d.audience && r.value.kind == d.kind
      ensures r.Ok? ==> r.value.cid == cid && r.value.token == d.payload && r.value.nickname == nickname
      ensures r.Ok? ==> r.value.updatedAt == now
      ensures r.Ok? ==>
                if d.kind.Linked? && HasLink(old(tokens), d.issuer, d.audience)
                then r.value.id in old(tokens) && r.value.createdAt == old(tokens)[r.value.id].createdAt
                else r.value.id == id && r.value.createdAt == now
      ensures r.Ok? ==> tokens.Keys == old(tokens).Keys + {r.value.id}
      ensures r.Ok? ==> forall k :: k in old(tokens) && k != r.value.id ==> tokens[k] == old(tokens)[k]
    {
      var peer := if d.audience != self then d.audience else d.issuer;
      if !writes {
        return Err("Err inserting token");
      }
      var row := Token(id, d.issuer, d.audience, d.kind, cid, d.payload, nickname, now, now);
      var next := tokens;
      var at := id;
      if d.kind.Linked? && HasLink(tokens, d.issuer, d.audience) {
        at :| at in tokens && IsLink(tokens[at], d.issuer, d.audience);
        next := tokens[at := Refreshed(tokens[at], row)];
      } else {
        next := tokens[id := row];
      }
      SavedKeeps(tokens, next, row);
      PutPeerKeeps(users, peer, nickname, now);
      if !commits {
        return Err("commit failed");
      }
      tokens, users := next, PutPeer(users, peer, nickname, now);
      assert at in tokens && tokens[at].cid == cid;
      r := Ok(tokens[at]);
    }

    method DeleteTokenByCid(cid: string, works: bool) returns (ok: bool)
      modifies `tokens
      ensures ok <==> works && exists id :: id in old(tokens) && old(tokens)[id].cid == cid
      ensures tokens == if ok then WithoutCid(old(tokens), cid) else old(tokens)
      ensures forall id :: id in tokens ==> id in old(tokens) && tokens[id] == old(tokens)[id]
      ensures forall id :: id in old(tokens) ==> (id in tokens <==> !ok || old(tokens)[id].cid != cid)
    {
      ok := works && exists id :: id in tokens && tokens[id].cid == cid;
      if ok {
        tokens := WithoutCid(tokens, cid);
      }
    }

    /** Revokes a peer: our link to it, and then, without insisting, its link to us. */
    method RevokeToken(peer: string, works: bool, reverseWorks: bool) returns (ok: bool)
      requires Valid()
      modifies `tokens
      ensures Valid()
      ensures ok <==> works && HasLink(old(tokens), self, peer)
      ensures !ok ==> tokens == old(tokens)
      ensures ok && reverseWorks ==> tokens == WithoutLinks(WithoutLinks(old(tokens), self, peer), peer, self)
      ensures ok && !reverseWorks ==> tokens == WithoutLinks(old(tokens), self, peer)
    {
      if !HasLink(tokens, self, peer) {
        return false;
      }
      var id :| id in tokens && IsLink(tokens[id], self, peer);
      CidIsLink(tokens, named, id);
      ok := DeleteTokenByCid(tokens[id].cid, works);
      if !ok {
        return;
      }
      if HasLink(tokens, peer, self) {
        var reverse :| reverse in tokens && IsLink(tokens[reverse], peer, self);
        CidIsLink(tokens, named, reverse);
        var gone := DeleteTokenByCid(tokens[reverse].cid, reverseWorks);
      } else {
        NoLinkSame(tokens, peer, self);
      }
    }

    /** A name that another user has is refused by the unique index. */
    method UpdateUser(userId: string, username: Option<string>, now: nat) returns (r: Result<User, string>)
      requires Valid()
      modifies `users
      ensures Valid()
      ensures r.Ok? <==> username.Some? && userId in old(users) && !Taken(old(users), username.value, userId)
      ensures r.Ok? ==> users == old(users)[userId := old(users)[userId].(username := username, updatedAt := now)]
      ensures r.Ok? ==> r.value == users[userId]
      ensures r.Err? ==> users == old(users)
    {
      if username.None? {
        return Err("No params given to update");
      }
      if userId !in users {
        return Err("User not found");
      }
      if Taken(users, username.value, userId) {
        return Err("Err updating user");
      }
      var next := users[userId := users[userId].(username := username, updatedAt := now)];
      RenameKeeps(users, userId, username.value, now);
      users := next;
      r := Ok(users[userId]);
    }
  }

  lemma RenameKeeps(users: UserTable, userId: string, name: string, now: nat)
    requires NamesUnique(users) && userId in users && !Taken(users, name, userId)
    ensures NamesUnique(users[userId := users[userId].(username := Some(name), updatedAt := now)])
  {
  }

  /** After a revoke that went through there is no link between the two any more, and every
      row that was no such link is still there as it was. */
  lemma RevokeMeaning(tokens: TokenTable, a: string, b: string)
    ensures var after := WithoutLinks(WithoutLinks(tokens, a, b), b, a);
            && !HasLink(after, a, b) && !HasLink(after, b, a)
            && forall id :: id in tokens && !IsLink(tokens[id], a, b) && !IsLink(tokens[id], b, a) ==>
                 id in after && after[id] == tokens[id]
  {
  }

  // ---------------------------------------------------------------- every sequence of operations

  datatype Op =
    | Add(d: Delegation, cid: string, nickname: Option<string>, now: nat, writes: bool, commits: bool)
    | Rename(userId: string, username: Option<string>, now: nat)
    | Revoke(peer: string, works: bool, reverseWorks: bool)

  predicate Named(ops: seq<Op>, named: string -> Delegation) {
    forall i :: 0 <= i < |ops| && ops[i].Add? ==> named(ops[i].cid) == ops[i].d
  }

  /** Any adds, renames and revokes, failing or not, on a new store: there is one link per
      issuer and audience at most, and no name is used twice. */
  method RunAll(self: string, name: Option<string>, ops: seq<Op>, ids: seq<int>, ghost named: string -> Delegation)
    returns (tokens: TokenTable, users: UserTable)
    requires Named(ops, named) && |ids| == |ops| && forall i, j :: 0 <= i < j < |ids| ==> ids[i] != ids[j]
    ensures OneLink(tokens) && NamesUnique(users)
    ensures self in users
  {
    var store := new AccountStore(self, name, 0, named);
    var i := 0;
    while i < |ops|
      invariant 0 <= i <= |ops| && fresh(store) && store.Valid() && store.self == self && store.named == named
      invariant self in store.users
      invariant forall id :: id in store.tokens ==> id in ids[..i]
    {
      ghost var before := store.tokens;
      match ops[i] {
        case Add(d, cid, nickname, now, writes, commits) =>
          assert ids[i] !in ids[..i];
          var r := store.SaveToken(d, cid, nickname, ids[i], now, writes, commits);
        case Rename(userId, username, now) =>
          var r := store.UpdateUser(userId, username, now);
        case Revoke(peer, works, reverseWorks) =>
          var ok := store.RevokeToken(peer, works, reverseWorks);
      }
      assert ids[..i + 1] == ids[..i] + [ids[i]];
      assert forall id :: id in store.tokens ==> id in before || id == ids[i];
      i := i + 1;
    }
    tokens, users := store.tokens, store.users;
  }
}
