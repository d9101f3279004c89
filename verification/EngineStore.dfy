/** What the store does to the engines folder, with a crash possible after every rename and
    every single file that is deleted or unpacked. */
module EngineStore {
  import opened Prelude
  import opened Engines
  import opened Text

  const TRASH := ".trash"
  const STAGING := ".staging"
  const DOWNLOADS := ".downloads"

  /** All but the trash, which nothing is ever read from. */
  function Rest(root: Root): Root {
    root - {TRASH}
  }

  /** What a crash in the middle of `remove` can leave. */
  ghost predicate Removing(was: Root, now: Root, name: string) {
    Rest(now) == Rest(was) || Rest(now) == Rest(was) - {name}
  }

  /** Entries whose names do not start with a dot. */
  function Visible(root: Root): Root {
    map name | name in root && !Hidden(name) :: root[name]
  }

  /** No visible folder is half unpacked or half deleted. */
  predicate Sound(root: Root) {
    forall name :: name in root && !Hidden(name) && root[name].Dir? ==> root[name].whole
  }

  ghost predicate SameVisible(was: Root, now: Root) {
    Visible(now) == Visible(was)
  }

  /** Visible folders may be gone, nothing else changed. */
  ghost predicate Fewer(was: Root, now: Root) {
    forall name {:trigger name in now} :: name in now && !Hidden(name) ==> name in was && now[name] == was[name]
  }

  lemma RestVisible(was: Root, now: Root, name: string)
    requires Removing(was, now, name)
    ensures Fewer(was, now)
    ensures forall n {:trigger n in now} :: n in was && !Hidden(n) && n != name ==> n in now
    ensures Hidden(name) ==> SameVisible(was, now)
  {
    forall n | !Hidden(n) && n != name ensures n in was ==> n in now && now[n] == was[n] {
      assert n in Rest(was) <==> n in was;
      assert n in Rest(now) <==> n in now;
    }
    forall n | n in now && !Hidden(n) ensures n in was && now[n] == was[n] {
      assert n in Rest(now);
      assert n in Rest(was);
    }
  }

  /** Nothing or a folder, which can be removed. */
  predicate NoFile(root: Root, name: string) {
    name in root ==> root[name].Dir?
  }

  predicate SameAt(was: Root, now: Root, name: string) {
    (name in now <==> name in was) && (name in was ==> now[name] == was[name])
  }

  /** All but the trash and the staging folder. */
  function Others(root: Root): Root {
    root - {TRASH, STAGING}
  }

  lemma OthersSame(was: Root, now: Root)
    requires Rest(now) == Rest(was) - {STAGING}
    ensures Others(now) == Others(was)
  {
    forall n ensures n in Others(now) <==> n in Others(was) {
      assert n in Rest(now) <==> n in Rest(was) && n != STAGING;
    }
    forall n | n in Others(was) ensures Others(now)[n] == Others(was)[n] {
      assert n in Rest(now);
      assert Rest(now)[n] == Rest(was)[n];
    }
  }

  lemma SameOther(was: Root, now: Root, name: string)
    requires Others(now) == Others(was) && name != TRASH && name != STAGING
    ensures SameAt(was, now, name)
  {
    assert name in Others(now) <==> name in now;
    assert name in Others(was) <==> name in was;
    assert name in was ==> Others(now)[name] == Others(was)[name];
  }

  lemma RestSame(was: Root, now: Root, gone: string, name: string)
    requires Rest(now) == Rest(was) - {gone} && name != gone && name != TRASH
    ensures SameAt(was, now, name)
  {
    assert name in Rest(now) <==> name in now;
    assert name in Rest(was) <==> name in was;
    assert name in was ==> Rest(now)[name] == Rest(was)[name];
  }

  class Store {
    /** Whether the file system grants the operation that is asked for as the n-th. */
    const grants: nat -> bool

    var root: Root
    var asked: nat

    /** The folder at every point where the program can crash, the present one last. */
    ghost var seen: seq<Root>

    ghost predicate Valid()
      reads this
    {
      seen != [] && seen[|seen| - 1] == root
    }

    /** The states since `from` are as `P` says. */
    ghost predicate Since(from: nat, P: Root -> bool)
      reads this
    {
      from <= |seen| && forall i :: from <= i < |seen| ==> P(seen[i])
    }

    /** Every operation since the first `from` was granted. */
    ghost predicate Granted(from: nat)
      reads this`asked
    {
      from <= asked && forall n :: from <= n < asked ==> grants(n)
    }

    constructor (root: Root, grants: nat -> bool)
      ensures Valid() && this.root == root && seen == [root] && this.grants == grants && asked == 0
    {
      this.root, this.grants := root, grants;
      asked, seen := 0, [root];
    }

    method Ask() returns (granted: bool)
      modifies this`asked
      ensures asked == old(asked) + 1 && granted == grants(old(asked))
    {
      granted := grants(asked);
      asked := asked + 1;
    }

    /** One change of the folder that is not divided by a crash. */
    method Put(next: Root)
      requires Valid()
      modifies this`root, this`seen
      ensures Valid() && root == next && seen == old(seen) + [next]
    {
      root := next;
      seen := seen + [next];
    }

    /** `remove_dir_all` of the trash, file by file. */
    method ClearTrash() returns (ok: bool)
      requires Valid()
      modifies this
      ensures Valid() && old(seen) <= seen
      ensures Since(|old(seen)|, now => Rest(now) == old(Rest(root)))
      ensures Rest(root) == old(Rest(root))
      ensures ok ==> TRASH !in root
      ensures old(asked) <= asked && (ok <==> NoFile(old(root), TRASH) && Granted(old(asked)))
    {
      if TRASH !in root {
        return true;
      }
      if root[TRASH].File? {
        return false;
      }
      while root[TRASH].files != {}
        invariant Valid() && old(seen) <= seen
        invariant Since(|old(seen)|, now => Rest(now) == old(Rest(root)))
        invariant Rest(root) == old(Rest(root)) && TRASH in root && root[TRASH].Dir?
        invariant Granted(old(asked))
        decreases |root[TRASH].files|
      {
        var file :| file in root[TRASH].files;
        var granted := Ask();
        if !granted {
          return false;
        }
        var next := root[TRASH := Dir(root[TRASH].files - {file}, false)];
        assert Rest(next) == Rest(root);
        Put(next);
      }
      var granted := Ask();
      if !granted {
        return false;
      }
      assert Rest(root - {TRASH}) == Rest(root);
      Put(root - {TRASH});
      ok := true;
    }

    /** Renamed away first, so that a half deleted engine never looks installed. */
    method Remove(name: string) returns (ok: bool)
      requires Valid()
      modifies this
      ensures Valid() && old(seen) <= seen
      ensures Since(|old(seen)|, now => Removing(old(root), now, name))
      ensures Removing(old(root), root, name)
      ensures ok ==> name !in root && TRASH !in root && Rest(root) == old(Rest(root)) - {name}
      ensures old(asked) <= asked
      ensures ok <==> NoFile(old(root), TRASH) && NoFile(old(root), name) && Granted(old(asked))
    {
      ok := ClearTrash();
      if !ok {
        return;
      }
      assert name != TRASH ==> (name in root <==> name in Rest(root));
      assert name != TRASH ==> (name in old(root) <==> name in Rest(old(root)));
      assert name in root ==> Rest(root)[name] == old(Rest(root))[name];
      if name !in root {
        assert Rest(root) == Rest(root) - {name};
        return true;
      }
      var granted := Ask();
      if !granted {
        return false;
      }
      var next := (root - {name})[TRASH := root[name]];
      assert Rest(next) == Rest(root) - {name};
      Put(next);
      label renamed:
      ok := ClearTrash();
      assert Rest(root) == old@renamed(Rest(root));
    }

    /** Fills a fresh staging folder file by file. Nothing that is installed changes. */
    method Unpack(archives: seq<seq<string>>) returns (ok: bool)
      requires Valid()
      modifies this
      ensures Valid() && old(seen) <= seen
      ensures Since(|old(seen)|, now => SameVisible(old(root), now)) && SameVisible(old(root), root)
      ensures ok ==> STAGING in root && root[STAGING] == Dir(FilesOf(archives), true)
      ensures ok ==> TRASH !in root && Others(root) == Others(old(root))
      ensures old(asked) <= asked
      ensures ok <==> NoFile(old(root), TRASH) && NoFile(old(root), STAGING) && Granted(old(asked))
    {
      ghost var was := root;
      ok := DiscardStaging();
      if !ok {
        return;
      }
      var created := Ask();
      if !created {
        return false;
      }
      PutHidden(Dir({}, false));
      var i := 0;
      while i < |archives|
        invariant 0 <= i <= |archives|
        invariant Valid() && old(seen) <= seen && SameVisible(was, root)
        invariant Since(|old(seen)|, now => SameVisible(was, now)) && Granted(old(asked))
        invariant STAGING in root && root[STAGING] == Dir(FilesOf(archives[..i]), false)
        invariant TRASH !in root && Others(root) == Others(was)
      {
        ok := UnpackOne(archives[i], was, |old(seen)|);
        if !ok {
          return;
        }
        FilesMore(archives, i);
        i := i + 1;
      }
      assert archives[..i] == archives;
      PutHidden(Dir(root[STAGING].files, true));
      ok := true;
    }

    /** The files of one archive into the staging folder. */
    method UnpackOne(archive: seq<string>, ghost was: Root, ghost start: nat) returns (ok: bool)
      requires Valid() && SameVisible(was, root) && Since(start, now => SameVisible(was, now))
      requires STAGING in root && root[STAGING].Dir? && !root[STAGING].whole
      modifies this
      ensures Valid() && old(seen) <= seen && SameVisible(was, root)
      ensures Since(start, now => SameVisible(was, now)) && Others(root) == Others(old(root))
      ensures TRASH in root <==> TRASH in old(root)
      ensures ok ==> STAGING in root
      ensures ok ==> var unpacked := set k | 0 <= k < |archive| :: archive[k];
                     root[STAGING] == Dir(old(root)[STAGING].files + unpacked, false)
      ensures old(asked) <= asked && (ok <==> Granted(old(asked)))
    {
      var j := 0;
      while j < |archive|
        invariant 0 <= j <= |archive|
        invariant Valid() && old(seen) <= seen && SameVisible(was, root)
        invariant Since(start, now => SameVisible(was, now)) && Granted(old(asked))
        invariant Others(root) == Others(old(root)) && (TRASH in root <==> TRASH in old(root))
        invariant STAGING in root
        invariant root[STAGING] == Dir(old(root)[STAGING].files + (set k | 0 <= k < j :: archive[k]), false)
      {
        var granted := Ask();
        if !granted {
          return false;
        }
        PutHidden(Dir(root[STAGING].files + {archive[j]}, false));
        j := j + 1;
      }
      ok := true;
    }

    /** A change of the staging folder alone. */
    method PutHidden(staged: Entry)
      requires Valid()
      modifies this`root, this`seen
      ensures Valid() && root == old(root)[STAGING := staged] && seen == old(seen) + [root]
      ensures SameVisible(old(root), root) && Others(root) == Others(old(root))
    {
      Put(root[STAGING := staged]);
    }

    method DiscardStaging() returns (ok: bool)
      requires Valid()
      modifies this
      ensures Valid() && old(seen) <= seen
      ensures Since(|old(seen)|, now => SameVisible(old(root), now)) && SameVisible(old(root), root)
      ensures ok ==> STAGING !in root && TRASH !in root && Others(root) == Others(old(root))
      ensures old(asked) <= asked
      ensures ok <==> NoFile(old(root), TRASH) && NoFile(old(root), STAGING) && Granted(old(asked))
    {
      ghost var was := root;
      ok := Remove(STAGING);
      forall i | |old(seen)| <= i < |seen| ensures SameVisible(was, seen[i]) {
        RestVisible(was, seen[i], STAGING);
      }
      RestVisible(was, root, STAGING);
      if ok {
        OthersSame(was, root);
      }
    }

    /** Removes one more folder after the move. */
    method RemoveAfter(name: string, dir: string, ghost was: Root, ghost start: nat) returns (ok: bool)
      requires Valid() && AllFinishing(was, seen, start, dir) && HasMoved(was, root, dir)
      requires name != dir && !Hidden(dir)
      modifies this
      ensures Valid() && old(seen) <= seen && AllFinishing(was, seen, start, dir) && HasMoved(was, root, dir)
      ensures Removing(old(root), root, name)
      ensures ok ==> name !in root && TRASH !in root && Rest(root) == Rest(old(root)) - {name}
      ensures old(asked) <= asked
      ensures ok <==> NoFile(old(root), TRASH) && NoFile(old(root), name) && Granted(old(asked))
    {
      ghost var before, from := root, |seen|;
      ok := Remove(name);
      RemoveKeepsMoved(was, before, seen, start, from, name, dir);
      assert seen[|seen| - 1] == root;
    }

    /** Removes every visible folder of the listing but one. */
    method RemoveOthers(listing: seq<string>, dir: string, ghost was: Root, ghost start: nat) returns (ok: bool)
      requires Valid() && AllFinishing(was, seen, start, dir) && HasMoved(was, root, dir)
      requires !Hidden(dir) && Lists(listing, was) && TRASH !in root
      modifies this
      ensures Valid() && old(seen) <= seen && AllFinishing(was, seen, start, dir) && HasMoved(was, root, dir)
      ensures ok ==> OnlyFolder(root, dir) && TRASH !in root && SameAt(old(root), root, DOWNLOADS)
      ensures old(asked) <= asked && (ok <==> Granted(old(asked)))
    {
      var i := 0;
      while i < |listing|
        invariant 0 <= i <= |listing|
        invariant Valid() && old(seen) <= seen && AllFinishing(was, seen, start, dir) && HasMoved(was, root, dir)
        invariant NoFolders(root, listing, i, dir)
        invariant TRASH !in root && SameAt(old(root), root, DOWNLOADS) && Granted(old(asked))
      {
        var path := listing[i];
        if path != dir && !Hidden(path) && path in root && root[path].Dir? {
          ghost var before := root;
          ok := RemoveAfter(path, dir, was, start);
          if !ok {
            return;
          }
          NoFolderKept(before, root, path, dir, listing, i);
          RestSame(before, root, path, DOWNLOADS);
        }
        i := i + 1;
      }
      OnlyLeft(was, root, listing, dir);
      ok := true;
    }

    /** Moves the checked build into place, then removes every other engine and the downloads. */
    method Finish(engine: Engine, tag: string, listing: seq<string>) returns (r: Option<Installed>)
      requires Valid() && Lists(listing, root)
      modifies this
      ensures Valid() && old(seen) <= seen && AllFinishing(old(root), seen, |old(seen)|, FolderName(engine, tag))
      ensures r.Some? ==> r.value == Installed(engine, tag, FolderName(engine, tag))
      ensures r.Some? ==> Finished(old(root), root, FolderName(engine, tag))
      ensures r.Some? ==> PassedThrough(old(root), seen, |old(seen)| - 1, FolderName(engine, tag))
      ensures old(asked) <= asked
      ensures r.Some? <==>
                && STAGING in old(root) && NoFile(old(root), TRASH) && NoFile(old(root), DOWNLOADS)
                && NoFile(old(root), FolderName(engine, tag)) && Granted(old(asked))
    {
      ghost var was, start := root, |seen|;
      var dir := FolderName(engine, tag);
      FolderVisible(engine, tag);
      r := None;
      var ok := Remove(dir);
      RemovingFinishes(was, seen, start, dir);
      if !ok {
        return;
      }
      RestSame(was, root, dir, STAGING);
      RestSame(was, root, dir, DOWNLOADS);
      ghost var cleared := seen;
      assert Rest(cleared[|cleared| - 1]) == Rest(was) - {dir};
      var granted := Ask();
      if !granted || STAGING !in root {
        return;
      }
      MoveFinishes(was, root, dir);
      Put((root - {STAGING})[dir := root[STAGING]]);
      ok := KeepOnly(listing, dir, was, start);
      assert seen[|cleared| - 1] == cleared[|cleared| - 1];
      if ok {
        r := Some(Installed(engine, tag, dir));
      }
    }

    /** What follows the move: every other engine and the downloads go. */
    method KeepOnly(listing: seq<string>, dir: string, ghost was: Root, ghost start: nat) returns (ok: bool)
      requires Valid() && AllFinishing(was, seen, start, dir) && HasMoved(was, root, dir)
      requires !Hidden(dir) && Lists(listing, was) && TRASH !in root
      modifies this
      ensures Valid() && old(seen) <= seen && AllFinishing(was, seen, start, dir)
      ensures ok ==> Finished(was, root, dir)
      ensures old(asked) <= asked && (ok <==> NoFile(old(root), DOWNLOADS) && Granted(old(asked)))
    {
      ok := Ask();
      if !ok {
        return;
      }
      ok := RemoveOthers(listing, dir, was, start);
      if !ok {
        return;
      }
      ghost var before := root;
      ok := RemoveAfter(DOWNLOADS, dir, was, start);
      if ok {
        OnlyKept(before, root, dir);
      }
    }

    /** Deletes the engine on disk and any download left half done: every folder there is. */
    method Delete(listing: seq<string>) returns (ok: bool)
      requires Valid() && Lists(listing, root)
      modifies this
      ensures Valid() && old(seen) <= seen && AllFewer(old(root), seen, |old(seen)|)
      ensures ok ==> NoDirs(root)
      ensures old(asked) <= asked
      ensures ok <==> Granted(old(asked)) && (NoFile(old(root), TRASH) || NoDirs(old(root)))
    {
      ghost var was, start := root, |seen|;
      var i := 0;
      while i < |listing|
        invariant 0 <= i <= |listing|
        invariant Valid() && old(seen) <= seen && AllFewer(was, seen, start)
        invariant OnlyLess(was, root) && NoneLeft(root, listing, i)
        invariant Granted(old(asked)) && (NoFile(was, TRASH) || root == was)
      {
        var path := listing[i];
        if path in root && root[path].Dir? {
          ghost var before, from := root, |seen|;
          ok := Remove(path);
          RemoveKeepsFewer(was, before, seen, start, from, path);
          if !ok {
            return;
          }
          LessStill(was, before, root, path, listing, i);
        }
        i := i + 1;
      }
      NothingLeft(was, root, listing);
      ok := true;
    }
  }

  predicate NoDirs(root: Root) {
    forall n :: n in root ==> root[n].File?
  }

  // ---------------------------------------------------------------- finishing, as values

  predicate Moved(was: Root, now: Root, dir: string) {
    && STAGING in was && dir in now && now[dir] == was[STAGING]
    && forall n {:trigger n in now} :: n in now && !Hidden(n) && n != dir ==> n in was && now[n] == was[n]
  }

  ghost predicate Before(was: Root, now: Root, dir: string) {
    Fewer(was, now) && forall n {:trigger n in now} :: n in was && !Hidden(n) && n != dir ==> n in now
  }

  /** Before the move only the folder of that name may be gone, after it the staged build
      stands there and the others go one by one. */
  ghost predicate Finishing(was: Root, now: Root, dir: string) {
    Before(was, now, dir) || Moved(was, now, dir)
  }

  predicate NoFolder(root: Root, name: string, dir: string) {
    name == dir || Hidden(name) || name !in root || root[name].File?
  }

  predicate OnlyFolder(root: Root, dir: string) {
    forall n :: n in root && !Hidden(n) && root[n].Dir? ==> n == dir
  }

  /** At one point the old folder of that name was gone and the new one not yet there. */
  ghost predicate PassedThrough(was: Root, states: seq<Root>, from: int, dir: string) {
    exists i :: 0 <= from <= i < |states| && Rest(states[i]) == Rest(was) - {dir}
  }

  ghost predicate AllFinishing(was: Root, states: seq<Root>, from: nat, dir: string) {
    from <= |states| && forall i :: from <= i < |states| ==> Finishing(was, states[i], dir)
  }

  predicate HasMoved(was: Root, now: Root, dir: string) {
    Moved(was, now, dir) && STAGING !in now
  }

  predicate NoFolders(root: Root, names: seq<string>, n: nat, dir: string)
    requires n <= |names|
  {
    forall j :: 0 <= j < n ==> NoFolder(root, names[j], dir)
  }

  /** The staged build is the only visible folder, and no download is left. */
  predicate Finished(was: Root, now: Root, dir: string) {
    HasMoved(was, now, dir) && OnlyFolder(now, dir) && DOWNLOADS !in now
  }

  lemma EngineVisible(name: string)
    requires ParseName(name).Some?
    ensures !Hidden(name)
  {
    var i := LastIndex(name, '-');
    var e := FromName(name[..i]).value;
    assert name[0] == EngineName(e)[0];
  }

  lemma FolderVisible(e: Engine, tag: string)
    ensures !Hidden(FolderName(e, tag)) && FolderName(e, tag) !in {TRASH, STAGING, DOWNLOADS}
  {
    assert FolderName(e, tag)[0] == EngineName(e)[0];
  }

  lemma RemovingFinishes(was: Root, seen: seq<Root>, from: nat, dir: string)
    requires from <= |seen| && forall i :: from <= i < |seen| ==> Removing(was, seen[i], dir)
    ensures AllFinishing(was, seen, from, dir)
  {
    forall i | from <= i < |seen| ensures Finishing(was, seen[i], dir) {
      RestVisible(was, seen[i], dir);
    }
  }

  lemma MoveFinishes(was: Root, now: Root, dir: string)
    requires !Hidden(dir) && Rest(now) == Rest(was) - {dir} && STAGING in now
    ensures HasMoved(was, (now - {STAGING})[dir := now[STAGING]], dir)
  {
    assert STAGING in Rest(now) && Rest(now)[STAGING] == Rest(was)[STAGING];
    var next := (now - {STAGING})[dir := now[STAGING]];
    forall n | n in next && !Hidden(n) && n != dir ensures n in was && next[n] == was[n] {
      assert n in Rest(now);
    }
  }

  lemma RemoveMoved(was: Root, before: Root, now: Root, name: string, dir: string)
    requires HasMoved(was, before, dir) && Removing(before, now, name) && name != dir && !Hidden(dir)
    ensures HasMoved(was, now, dir)
  {
    RestVisible(before, now, name);
    assert dir in now;
    assert STAGING in now ==> STAGING in Rest(now);
  }

  lemma RemoveKeepsMoved(was: Root, before: Root, seen: seq<Root>, start: nat, from: nat, name: string, dir: string)
    requires HasMoved(was, before, dir) && name != dir && !Hidden(dir)
    requires 0 < from <= |seen| && seen[from - 1] == before && start <= from
    requires forall i :: start <= i < from ==> Finishing(was, seen[i], dir)
    requires forall i :: from <= i < |seen| ==> Removing(before, seen[i], name)
    ensures AllFinishing(was, seen, start, dir)
    ensures HasMoved(was, seen[|seen| - 1], dir)
  {
    forall i | from <= i < |seen| ensures HasMoved(was, seen[i], dir) {
      RemoveMoved(was, before, seen[i], name, dir);
    }
  }

  lemma NoFolderKept(before: Root, now: Root, name: string, dir: string, names: seq<string>, n: nat)
    requires Removing(before, now, name) && name !in now && n < |names| && names[n] == name
    requires NoFolders(before, names, n, dir)
    ensures NoFolders(now, names, n + 1, dir)
  {
    RestVisible(before, now, name);
    forall j | 0 <= j < n ensures NoFolder(now, names[j], dir) {
      assert NoFolder(before, names[j], dir);
    }
  }

  lemma OnlyLeft(was: Root, root: Root, listing: seq<string>, dir: string)
    requires Lists(listing, was) && Moved(was, root, dir) && NoFolders(root, listing, |listing|, dir)
    ensures OnlyFolder(root, dir)
  {
    forall n | n in root && !Hidden(n) && n != dir ensures NoFolder(root, n, dir) {
      assert n in listing;
      var j :| 0 <= j < |listing| && listing[j] == n;
      assert NoFolder(root, listing[j], dir);
    }
  }

  lemma OnlyKept(before: Root, now: Root, dir: string)
    requires OnlyFolder(before, dir) && Removing(before, now, DOWNLOADS)
    ensures OnlyFolder(now, dir)
  {
    RestVisible(before, now, DOWNLOADS);
  }

  function FilesOf(archives: seq<seq<string>>): set<string> {
    set i, k | 0 <= i < |archives| && 0 <= k < |archives[i]| :: archives[i][k]
  }

  lemma FilesMore(archives: seq<seq<string>>, i: nat)
    requires i < |archives|
    ensures FilesOf(archives[..i + 1]) == FilesOf(archives[..i]) + (set k | 0 <= k < |archives[i]| :: archives[i][k])
  {
    var before, after := archives[..i], archives[..i + 1];
    var added := set k | 0 <= k < |archives[i]| :: archives[i][k];
    forall f ensures f in FilesOf(after) <==> f in FilesOf(before) || f in added {
      if f in FilesOf(after) {
        var j, k :| 0 <= j < |after| && 0 <= k < |after[j]| && after[j][k] == f;
        assert j < i ==> before[j][k] == f;
      }
      if f in FilesOf(before) {
        var j, k :| 0 <= j < |before| && 0 <= k < |before[j]| && before[j][k] == f;
        assert after[j][k] == f;
      }
      assert after[i] == archives[i];
    }
  }

  // ---------------------------------------------------------------- deleting, as values

  ghost predicate AllFewer(was: Root, states: seq<Root>, from: nat) {
    from <= |states| && forall i :: from <= i < |states| ==> Fewer(was, states[i])
  }

  ghost predicate OnlyLess(was: Root, now: Root) {
    forall n {:trigger n in now} :: n in now ==> n in was && now[n] == was[n]
  }

  predicate NoneLeft(root: Root, names: seq<string>, n: nat)
    requires n <= |names|
  {
    forall j :: 0 <= j < n ==> names[j] in root ==> root[names[j]].File?
  }

  lemma RemoveKeepsFewer(was: Root, before: Root, seen: seq<Root>, start: nat, from: nat, name: string)
    requires start <= from <= |seen| && OnlyLess(was, before)
    requires forall i :: start <= i < from ==> Fewer(was, seen[i])
    requires forall i :: from <= i < |seen| ==> Removing(before, seen[i], name)
    ensures AllFewer(was, seen, start)
  {
    forall i | from <= i < |seen| ensures Fewer(was, seen[i]) {
      RestVisible(before, seen[i], name);
    }
  }

  lemma LessStill(was: Root, before: Root, now: Root, name: string, names: seq<string>, n: nat)
    requires OnlyLess(was, before) && TRASH !in now && Rest(now) == Rest(before) - {name}
    requires n < |names| && names[n] == name && NoneLeft(before, names, n)
    ensures OnlyLess(was, now) && NoneLeft(now, names, n + 1)
  {
    forall k | k in now ensures k in before && now[k] == before[k] && k != name {
      assert k in Rest(now);
    }
  }

  lemma NothingLeft(was: Root, root: Root, names: seq<string>)
    requires Lists(names, was) && OnlyLess(was, root) && NoneLeft(root, names, |names|)
    ensures NoDirs(root)
  {
    forall n | n in root ensures root[n].File? {
      assert n in names;
    }
  }

  // ---------------------------------------------------------------- main results

  /** No crash point shows a half unpacked or half deleted folder as installed. */
  lemma NeverPartial(was: Root, states: seq<Root>, from: nat, dir: string, i: nat, listing: seq<string>)
    requires Sound(was) && AllFinishing(was, states, from, dir) && from <= i < |states|
    requires STAGING in was && was[STAGING].Dir? ==> was[STAGING].whole
    requires Lists(listing, states[i])
    ensures var r := InstalledIn(states[i], listing);
            r.Some? ==> r.value.dir in states[i] && states[i][r.value.dir].Dir? && states[i][r.value.dir].whole
  {
    assert Finishing(was, states[i], dir);
    InstalledIsWhole(states[i], listing);
  }

  /** The same while the engines are deleted. */
  lemma NeverPartialDeleting(was: Root, states: seq<Root>, from: nat, i: nat, listing: seq<string>)
    requires Sound(was) && AllFewer(was, states, from) && from <= i < |states|
    requires Lists(listing, states[i])
    ensures var r := InstalledIn(states[i], listing);
            r.Some? ==> states[i][r.value.dir].whole && IsEngine(was, r.value.dir)
  {
    assert Fewer(was, states[i]);
    InstalledMeaning(states[i], listing);
    if InstalledIn(states[i], listing).Some? {
      EngineVisible(InstalledIn(states[i], listing).value.dir);
    }
  }

  /** Another engine to fall back on, and a staged build that will be found. */
  ghost predicate CanStay(was: Root, engine: Engine, tag: string) {
    && (exists name :: name != FolderName(engine, tag) && IsEngine(was, name))
    && STAGING in was && was[STAGING].Dir? && SERVER in was[STAGING].files
    && '-' !in tag
  }

  lemma StaysBefore(was: Root, now: Root, dir: string, name: string)
    requires Before(was, now, dir) && name != dir && IsEngine(was, name)
    ensures AnyEngine(now)
  {
    EngineVisible(name);
    assert name in now;
    assert IsEngine(now, name);
  }

  lemma MovedIsEngine(was: Root, now: Root, engine: Engine, tag: string)
    requires Moved(was, now, FolderName(engine, tag))
    ensures IsEngine(now, FolderName(engine, tag)) <==> '-' !in tag && was[STAGING].Dir? && SERVER in was[STAGING].files
  {
    if '-' in tag { DashHides(engine, tag); } else { NameSplits(engine, tag); }
  }

  /** With a fallback and a build that will be found, something is installed at every crash point. */
  lemma NeverEmpty(was: Root, states: seq<Root>, from: nat, engine: Engine, tag: string, i: nat)
    requires AllFinishing(was, states, from, FolderName(engine, tag)) && from <= i < |states|
    requires CanStay(was, engine, tag)
    ensures AnyEngine(states[i])
  {
    var dir := FolderName(engine, tag);
    var name :| name != dir && IsEngine(was, name);
    assert Finishing(was, states[i], dir);
    if Before(was, states[i], dir) {
      StaysBefore(was, states[i], dir, name);
    } else {
      MovedIsEngine(was, states[i], engine, tag);
    }
  }

  lemma EmptiedAt(was: Root, now: Root, dir: string)
    requires Rest(now) == Rest(was) - {dir}
    requires forall name :: IsEngine(was, name) ==> name == dir
    ensures !AnyEngine(now)
  {
    forall name ensures !IsEngine(now, name) {
      if IsEngine(now, name) {
        EngineVisible(name);
        assert name in Rest(now);
        assert IsEngine(was, name);
      }
    }
  }

  lemma EmptyAtEnd(was: Root, now: Root, engine: Engine, tag: string)
    requires Finished(was, now, FolderName(engine, tag))
    requires !('-' !in tag && was[STAGING].Dir? && SERVER in was[STAGING].files)
    ensures !AnyEngine(now)
  {
    MovedIsEngine(was, now, engine, tag);
    forall name ensures !IsEngine(now, name) {
      if IsEngine(now, name) {
        EngineVisible(name);
      }
    }
  }

  /** A finish that went through never left the folder without an engine exactly when there
      was another one to fall back on and the new one can be found. */
  lemma NeverEmptyExactly(was: Root, states: seq<Root>, from: nat, engine: Engine, tag: string)
    requires 0 < from < |states| && states[from - 1] == was
    requires AllFinishing(was, states, from, FolderName(engine, tag))
    requires PassedThrough(was, states, from - 1, FolderName(engine, tag))
    requires Finished(was, states[|states| - 1], FolderName(engine, tag))
    ensures (forall i :: from - 1 <= i < |states| ==> AnyEngine(states[i])) <==> CanStay(was, engine, tag)
  {
    var dir := FolderName(engine, tag);
    if CanStay(was, engine, tag) {
      forall i | from - 1 <= i < |states| ensures AnyEngine(states[i]) {
        if i >= from {
          NeverEmpty(was, states, from, engine, tag, i);
        }
      }
    } else if exists name :: name != dir && IsEngine(was, name) {
      EmptyAtEnd(was, states[|states| - 1], engine, tag);
    } else {
      var i :| 0 <= from - 1 <= i < |states| && Rest(states[i]) == Rest(was) - {dir};
      EmptiedAt(was, states[i], dir);
    }
  }

  /** After a finish that went through, the new engine is the one that is installed, however
      the folder is listed, exactly when its server is there and its tag has no dash. */
  lemma ExactlyNew(was: Root, now: Root, engine: Engine, tag: string, listing: seq<string>)
    requires Finished(was, now, FolderName(engine, tag)) && Lists(listing, now)
    ensures InstalledIn(now, listing) == Some(Installed(engine, tag, FolderName(engine, tag)))
       <==> '-' !in tag && was[STAGING].Dir? && SERVER in was[STAGING].files
  {
    MovedIsEngine(was, now, engine, tag);
    if IsEngine(now, FolderName(engine, tag)) {
      forall n | IsEngine(now, n) ensures n == FolderName(engine, tag) {
        EngineVisible(n);
      }
      NameReadBack(engine, tag);
      OnlyInstalled(now, listing, FolderName(engine, tag));
    } else {
      InstalledMeaning(now, listing);
    }
  }

  /** What is installed in a folder without broken ones is whole, in any listing. */
  lemma InstalledIsWhole(root: Root, listing: seq<string>)
    requires Sound(root) && Lists(listing, root)
    ensures var r := InstalledIn(root, listing);
            r.Some? ==> r.value.dir in root && root[r.value.dir].Dir? && root[r.value.dir].whole
  {
    InstalledMeaning(root, listing);
    if InstalledIn(root, listing).Some? {
      EngineVisible(InstalledIn(root, listing).value.dir);
    }
  }
}
