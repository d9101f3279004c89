/** Every run of the engine store: builds are unpacked, checked and put in place, or deleted. */
module EngineRuns {
  import opened Prelude
  import opened Engines
  import opened EngineStore

  // ---------------------------------------------------------------- runs as values

  /** One operation, with the states the folder was in: the last is where it ended, failed
      or crashed. A build is only put in place once it has unpacked. */
  datatype Phase = Phase(op: Op, states: seq<Root>)

  datatype Op = Unpacks | Finishes(engine: Engine, tag: string) | Deletes

  /** What the methods promise about the states of an operation that began in `was`. */
  ghost predicate PhaseOk(was: Root, p: Phase) {
    match p.op
    case Unpacks => forall i :: 0 <= i < |p.states| ==> SameVisible(was, p.states[i])
    case Finishes(engine, tag) =>
      && AllFinishing(was, p.states, 0, FolderName(engine, tag))
      && (STAGING in was && was[STAGING].Dir? ==> was[STAGING].whole)
    case Deletes => AllFewer(was, p.states, 0)
  }

  function EndOf(was: Root, p: Phase): Root {
    if p.states == [] then was else p.states[|p.states| - 1]
  }

  ghost predicate IsRun(start: Root, phases: seq<Phase>)
    decreases |phases|
  {
    phases == [] || (PhaseOk(start, phases[0]) && IsRun(EndOf(start, phases[0]), phases[1..]))
  }

  function RunEnd(start: Root, phases: seq<Phase>): Root
    decreases |phases|
  {
    if phases == [] then start else RunEnd(EndOf(start, phases[0]), phases[1..])
  }

  lemma SameStaysSound(was: Root, now: Root)
    requires Sound(was) && SameVisible(was, now)
    ensures Sound(now)
  {
    forall n | n in now && !Hidden(n) && now[n].Dir? ensures now[n].whole {
      assert n in Visible(now) && n in Visible(was);
    }
  }

  lemma PhaseKeepsSound(was: Root, p: Phase, i: nat)
    requires Sound(was) && PhaseOk(was, p) && i < |p.states|
    ensures Sound(p.states[i])
  {
    match p.op
    case Unpacks => SameStaysSound(was, p.states[i]);
    case Finishes(engine, tag) => assert Finishing(was, p.states[i], FolderName(engine, tag));
    case Deletes => assert Fewer(was, p.states[i]);
  }

  /** Any unpacks, finishes and deletes one after another, each from where the one before
      ended, failed or crashed, keep every visible folder whole. */
  lemma {:induction false} EverSound(start: Root, phases: seq<Phase>, k: nat, i: nat)
    requires Sound(start) && IsRun(start, phases) && k < |phases| && i < |phases[k].states|
    ensures Sound(phases[k].states[i])
    decreases k
  {
    if k == 0 {
      PhaseKeepsSound(start, phases[0], i);
    } else {
      var p := phases[0];
      if p.states != [] {
        PhaseKeepsSound(start, p, |p.states| - 1);
      }
      EverSound(EndOf(start, p), phases[1..], k - 1, i);
    }
  }

  ghost predicate AllSound(phases: seq<Phase>) {
    forall k, i :: 0 <= k < |phases| && 0 <= i < |phases[k].states| ==> Sound(phases[k].states[i])
  }

  lemma RunSound(start: Root, phases: seq<Phase>)
    requires Sound(start) && IsRun(start, phases)
    ensures AllSound(phases)
  {
    forall k, i | 0 <= k < |phases| && 0 <= i < |phases[k].states| ensures Sound(phases[k].states[i]) {
      EverSound(start, phases, k, i);
    }
  }

  lemma {:induction false} EndSound(start: Root, phases: seq<Phase>)
    requires Sound(start) && IsRun(start, phases)
    ensures Sound(RunEnd(start, phases))
    decreases |phases|
  {
    if phases != [] {
      var p := phases[0];
      if p.states != [] {
        PhaseKeepsSound(start, p, |p.states| - 1);
      }
      EndSound(EndOf(start, p), phases[1..]);
    }
  }

  lemma {:induction false} RunMore(start: Root, phases: seq<Phase>, p: Phase)
    requires IsRun(start, phases) && PhaseOk(RunEnd(start, phases), p)
    ensures IsRun(start, phases + [p]) && RunEnd(start, phases + [p]) == EndOf(RunEnd(start, phases), p)
    decreases |phases|
  {
    var more := phases + [p];
    if phases == [] {
      assert more[1..] == [];
    } else {
      assert more[1..] == phases[1..] + [p];
      RunMore(EndOf(start, phases[0]), phases[1..], p);
    }
  }

  // ---------------------------------------------------------------- runs of the methods

  /** What is asked of the store. `passes` is how the check of an unpacked build comes out, None
      if the program ends before. */
  datatype Request = Install(archives: seq<seq<string>>, passes: Option<bool>, engine: Engine, tag: string) | Remove

  /** The operations a request leads to, as far as they are reached. */
  predicate Serves(r: Request, phases: seq<Phase>) {
    match r
    case Remove => |phases| == 1 && phases[0].op == Deletes
    case Install(_, passes, engine, tag) =>
      && 0 < |phases| <= 2 && phases[0].op == Unpacks
      && (|phases| == 2 ==>
            passes.Some? && phases[1].op == if passes.value then Finishes(engine, tag) else Unpacks)
  }

  function Flat(parts: seq<seq<Phase>>): seq<Phase> {
    if parts == [] then [] else Flat(parts[..|parts| - 1]) + parts[|parts| - 1]
  }

  /** The states of the operation that began when `before` had been seen. */
  ghost function Did(op: Op, before: seq<Root>, seen: seq<Root>): Phase
    requires |before| <= |seen|
  {
    Phase(op, seen[|before|..])
  }

  lemma DidEnd(op: Op, before: seq<Root>, seen: seq<Root>)
    requires before != [] && before <= seen
    ensures EndOf(before[|before| - 1], Did(op, before, seen)) == seen[|seen| - 1]
  {
  }

  /** The entries of the folder, in some order. */
  method Names(root: Root) returns (listing: seq<string>)
    ensures Lists(listing, root) && forall name :: name in listing ==> name in root
  {
    listing := [];
    var left := root.Keys;
    while left != {}
      invariant left <= root.Keys && forall name :: name in listing ==> name in root
      invariant forall name :: name in root ==> name in left || name in listing
      decreases |left|
    {
      var name :| name in left;
      listing := listing + [name];
      left := left - {name};
    }
  }

  method Unpacked(store: Store, archives: seq<seq<string>>) returns (ok: bool, ghost p: Phase)
    requires store.Valid()
    modifies store
    ensures store.Valid()
    ensures p.op == Unpacks && PhaseOk(old(store.root), p) && EndOf(old(store.root), p) == store.root
    ensures ok ==> STAGING in store.root && store.root[STAGING] == Dir(FilesOf(archives), true)
    ensures ok ==> TRASH !in store.root && Others(store.root) == Others(old(store.root))
    ensures old(store.asked) <= store.asked
    ensures ok <==>
              && NoFile(old(store.root), TRASH) && NoFile(old(store.root), STAGING)
              && store.Granted(old(store.asked))
  {
    ghost var before := store.seen;
    ok := store.Unpack(archives);
    p := Did(Unpacks, before, store.seen);
    DidEnd(Unpacks, before, store.seen);
  }

  method Discarded(store: Store) returns (ghost p: Phase)
    requires store.Valid()
    modifies store
    ensures store.Valid()
    ensures p.op == Unpacks && PhaseOk(old(store.root), p) && EndOf(old(store.root), p) == store.root
    ensures old(store.asked) <= store.asked
  {
    ghost var before := store.seen;
    var ok := store.DiscardStaging();
    p := Did(Unpacks, before, store.seen);
    DidEnd(Unpacks, before, store.seen);
  }

  method Finished(store: Store, engine: Engine, tag: string) returns (installed: Option<Installed>, ghost p: Phase)
    requires store.Valid() && (STAGING in store.root && store.root[STAGING].Dir? ==> store.root[STAGING].whole)
    modifies store
    ensures store.Valid()
    ensures p.op == Finishes(engine, tag) && PhaseOk(old(store.root), p) && EndOf(old(store.root), p) == store.root
    ensures installed.Some? ==> installed.value == Installed(engine, tag, FolderName(engine, tag))
    ensures installed.Some? ==> EngineStore.Finished(old(store.root), store.root, FolderName(engine, tag))
    ensures old(store.asked) <= store.asked
    ensures installed.Some? <==>
              && STAGING in old(store.root) && NoFile(old(store.root), TRASH) && NoFile(old(store.root), DOWNLOADS)
              && NoFile(old(store.root), FolderName(engine, tag)) && store.Granted(old(store.asked))
  {
    ghost var before := store.seen;
    var listing := Names(store.root);
    installed := store.Finish(engine, tag, listing);
    p := Did(Finishes(engine, tag), before, store.seen);
    DidEnd(Finishes(engine, tag), before, store.seen);
  }

  method Deleted(store: Store) returns (ghost p: Phase)
    requires store.Valid()
    modifies store
    ensures store.Valid()
    ensures p.op == Deletes && PhaseOk(old(store.root), p) && EndOf(old(store.root), p) == store.root
    ensures old(store.asked) <= store.asked
  {
    ghost var before := store.seen;
    var listing := Names(store.root);
    var ok := store.Delete(listing);
    p := Did(Deletes, before, store.seen);
    DidEnd(Deletes, before, store.seen);
  }

  /** No file has the name of a folder that the install has to remove. */
  predicate Clear(root: Root, dir: string) {
    NoFile(root, TRASH) && NoFile(root, STAGING) && NoFile(root, DOWNLOADS) && NoFile(root, dir)
  }

  lemma ClearOf(was: Root, now: Root, dir: string)
    requires Others(now) == Others(was) && !Hidden(dir)
    ensures NoFile(now, DOWNLOADS) && NoFile(now, dir) <==> NoFile(was, DOWNLOADS) && NoFile(was, dir)
  {
    SameOther(was, now, DOWNLOADS);
    SameOther(was, now, dir);
  }

  /** Unpacks a build, and once it has passed its check puts it in place. It ends installed
      exactly if it passed, every operation was granted and no file was in the way. What is
      installed is then found, if it has a server and a tag without a dash. */
  method InstallBuild(store: Store, archives: seq<seq<string>>, passes: Option<bool>, engine: Engine, tag: string)
    returns (installed: Option<Installed>, ghost phases: seq<Phase>)
    requires store.Valid()
    modifies store
    ensures store.Valid() && old(store.asked) <= store.asked
    ensures Serves(Install(archives, passes, engine, tag), phases)
    ensures IsRun(old(store.root), phases) && RunEnd(old(store.root), phases) == store.root
    ensures installed.Some? <==>
              && passes == Some(true) && Clear(old(store.root), FolderName(engine, tag))
              && store.Granted(old(store.asked))
    ensures installed.Some? ==>
              forall listing :: Lists(listing, store.root) ==>
                (InstalledIn(store.root, listing) == Some(Installed(engine, tag, FolderName(engine, tag)))
                 <==> '-' !in tag && SERVER in FilesOf(archives))
  {
    ghost var was := store.root;
    ghost var p, q;
    var ok;
    installed := None;
    ok, p := Unpacked(store, archives);
    phases := [p];
    assert [p][1..] == [];
    if ok && passes.Some? {
      if passes.value {
        ghost var unpacked := store.root;
        FolderVisible(engine, tag);
        ClearOf(was, unpacked, FolderName(engine, tag));
        installed, q := Finished(store, engine, tag);
        if installed.Some? {
          Found(unpacked, store.root, engine, tag);
        }
      } else {
        q := Discarded(store);
      }
      RunMore(was, [p], q);
      phases := [p] + [q];
    }
  }

  lemma Found(was: Root, now: Root, engine: Engine, tag: string)
    requires EngineStore.Finished(was, now, FolderName(engine, tag)) && was[STAGING].Dir?
    ensures forall listing :: Lists(listing, now) ==>
              (InstalledIn(now, listing) == Some(Installed(engine, tag, FolderName(engine, tag)))
               <==> '-' !in tag && SERVER in was[STAGING].files)
  {
    forall listing | Lists(listing, now)
      ensures InstalledIn(now, listing) == Some(Installed(engine, tag, FolderName(engine, tag)))
         <==> '-' !in tag && SERVER in was[STAGING].files
    {
      ExactlyNew(was, now, engine, tag, listing);
    }
  }

  lemma {:induction false} RunJoin(start: Root, a: seq<Phase>, b: seq<Phase>)
    requires IsRun(start, a) && IsRun(RunEnd(start, a), b)
    ensures IsRun(start, a + b) && RunEnd(start, a + b) == RunEnd(RunEnd(start, a), b)
    decreases |a|
  {
    if a == [] {
      assert a + b == b;
    } else {
      assert (a + b)[1..] == a[1..] + b;
      RunJoin(EndOf(start, a[0]), a[1..], b);
    }
  }

  /** Any requests, one after another, with operations that fail anywhere: the folder goes
      through such a run, and no visible folder is ever half unpacked or half deleted. */
  method ServeAll(start: Root, requests: seq<Request>, grants: nat -> bool)
    returns (root: Root, ghost parts: seq<seq<Phase>>)
    requires Sound(start)
    ensures |parts| == |requests| && forall i :: 0 <= i < |parts| ==> Serves(requests[i], parts[i])
    ensures IsRun(start, Flat(parts)) && RunEnd(start, Flat(parts)) == root
    ensures AllSound(Flat(parts)) && Sound(root)
  {
    var store := new Store(start, grants);
    parts := [];
    var i := 0;
    while i < |requests|
      invariant 0 <= i <= |requests| && fresh(store) && store.Valid()
      invariant |parts| == i && forall j :: 0 <= j < i ==> Serves(requests[j], parts[j])
      invariant IsRun(start, Flat(parts)) && RunEnd(start, Flat(parts)) == store.root
    {
      ghost var was := store.root;
      ghost var phases;
      match requests[i] {
        case Install(archives, passes, engine, tag) =>
          var installed;
          installed, phases := InstallBuild(store, archives, passes, engine, tag);
        case Remove =>
          ghost var p := Deleted(store);
          phases := [p];
          assert [p][1..] == [];
      }
      RunJoin(start, Flat(parts), phases);
      assert (parts + [phases])[..i] == parts;
      parts := parts + [phases];
      i := i + 1;
    }
    root := store.root;
    RunSound(start, Flat(parts));
    EndSound(start, Flat(parts));
  }
}
