/** The engines folder: what counts as installed, and putting a build in place so that a
    crash at any point leaves something that can be told apart. */
module Engines {
  import opened Prelude
  import opened Text

  datatype Engine = Cuda13 | Cuda12 | Vulkan | Cpu | Metal

  function EngineName(e: Engine): string {
    match e
    case Cuda13 => "cuda-13"
    case Cuda12 => "cuda-12"
    case Vulkan => "vulkan"
    case Cpu => "cpu"
    case Metal => "metal"
  }

  function FromName(name: string): (r: Option<Engine>)
    ensures r.Some? ==> EngineName(r.value) == name
  {
    if name == "cuda-13" then Some(Cuda13)
    else if name == "cuda-12" then Some(Cuda12)
    else if name == "vulkan" then Some(Vulkan)
    else if name == "cpu" then Some(Cpu)
    else if name == "metal" then Some(Metal)
    else None
  }

  lemma FromEngineName(e: Engine)
    ensures FromName(EngineName(e)) == Some(e)
  {
  }

  /** `whole` remembers whether the folder holds all it was filled with: nothing is still
      missing and nothing was deleted again. */
  datatype Entry = File | Dir(files: set<string>, whole: bool)

  type Root = map<string, Entry>

  datatype Installed = Installed(engine: Engine, tag: string, dir: string)

  const SERVER := "llama-server"

  predicate Hidden(name: string) {
    name != "" && name[0] == '.'
  }

  /** A folder name is split at its last dash. */
  function ParseName(name: string): Option<Installed> {
    var i := LastIndex(name, '-');
    if i < 0 then None
    else
      match FromName(name[..i])
      case Some(e) => Some(Installed(e, name[i + 1..], name))
      case None => None
  }

  function FolderName(e: Engine, tag: string): string {
    EngineName(e) + "-" + tag
  }

  predicate IsEngine(root: Root, name: string) {
    name in root && ParseName(name).Some? && root[name].Dir? && SERVER in root[name].files
  }

  /** `trim_start_matches('b')` */
  function TrimB(s: string): string {
    if s != "" && s[0] == 'b' then TrimB(s[1..]) else s
  }

  /** `parse::<u64>().unwrap_or(0)` of what is left without the leading b. */
  function BuildNumber(tag: string): (n: nat)
    ensures n < 0x1_0000_0000_0000_0000
  {
    var rest := TrimB(tag);
    var digits := if rest != "" && rest[0] == '+' then rest[1..] else rest;
    if digits != "" && Digits(digits) && 0 <= Number(digits) < 0x1_0000_0000_0000_0000 then Number(digits) else 0
  }

  /** A tag like b6869 counts as its number, as long as that fits 64 bits. */
  lemma BuildNumberExactly(n: nat)
    ensures BuildNumber(['b'] + Decimal(n)) == if n < 0x1_0000_0000_0000_0000 then n else 0
  {
    DecimalRead(n);
    var digits := Decimal(n);
    var tag := ['b'] + digits;
    assert '0' <= digits[0] <= '9';
    assert tag[1..] == digits;
    assert TrimB(tag) == TrimB(digits) == digits;
  }

  /** The entries that are engines, in the order the folder is listed in. */
  function Found(root: Root, listing: seq<string>): (r: seq<Installed>)
    ensures forall i :: 0 <= i < |r| ==>
              IsEngine(root, r[i].dir) && r[i].dir in listing && ParseName(r[i].dir) == Some(r[i])
    ensures forall n :: n in listing && IsEngine(root, n) ==> ParseName(n).value in r
  {
    if listing == [] then []
    else
      var rest := Found(root, listing[1..]);
      if IsEngine(root, listing[0]) then [ParseName(listing[0]).value] + rest else rest
  }

  /** `max_by_key`: the last of the highest keys. */
  function LastMax(keys: seq<nat>, n: nat): (k: nat)
    requires 0 < n <= |keys|
    ensures k < n
    ensures forall i :: 0 <= i < n ==> keys[i] <= keys[k]
    ensures forall i :: k < i < n ==> keys[i] < keys[k]
  {
    if n == 1 then 0
    else
      var best := LastMax(keys, n - 1);
      if keys[n - 1] >= keys[best] then n - 1 else best
  }

  function Builds(found: seq<Installed>): (keys: seq<nat>)
    ensures |keys| == |found| && forall i :: 0 <= i < |found| ==> keys[i] == BuildNumber(found[i].tag)
  {
    seq(|found|, i requires 0 <= i < |found| => BuildNumber(found[i].tag))
  }

  function FirstOf(found: seq<Installed>, tag: string, i: nat): (k: nat)
    requires exists j :: i <= j < |found| && found[j].tag == tag
    ensures i <= k < |found| && found[k].tag == tag
    decreases |found| - i
  {
    if found[i].tag == tag then i else FirstOf(found, tag, i + 1)
  }

  function InstalledIn(root: Root, listing: seq<string>): Option<Installed> {
    var found := Found(root, listing);
    if found == [] then None
    else
      var tag := found[LastMax(Builds(found), |found|)].tag;
      Some(found[FirstOf(found, tag, 0)])
  }

  ghost predicate Lists(listing: seq<string>, root: Root) {
    forall name :: name in root ==> name in listing
  }

  ghost predicate AnyEngine(root: Root) {
    exists name :: IsEngine(root, name)
  }

  /** Something is installed exactly when some folder is an engine with a server, and then it
      is one with the highest build number, however the folder is listed. */
  lemma InstalledMeaning(root: Root, listing: seq<string>)
    requires Lists(listing, root)
    ensures InstalledIn(root, listing).Some? <==> AnyEngine(root)
    ensures InstalledIn(root, listing).Some? ==>
              var r := InstalledIn(root, listing).value;
              && IsEngine(root, r.dir) && ParseName(r.dir) == Some(r)
              && forall n :: IsEngine(root, n) ==> BuildNumber(ParseName(n).value.tag) <= BuildNumber(r.tag)
  {
    var found := Found(root, listing);
    if n :| IsEngine(root, n) {
      assert ParseName(n).value in found;
    }
    if found != [] {
      var r := InstalledIn(root, listing).value;
      assert IsEngine(root, r.dir);
      forall n | IsEngine(root, n) ensures BuildNumber(ParseName(n).value.tag) <= BuildNumber(r.tag) {
        var i :| 0 <= i < |found| && found[i] == ParseName(n).value;
      }
    }
  }

  lemma OnlyInstalled(root: Root, listing: seq<string>, dir: string)
    requires Lists(listing, root) && IsEngine(root, dir)
    requires forall n :: IsEngine(root, n) ==> n == dir
    ensures InstalledIn(root, listing) == ParseName(dir)
  {
    InstalledMeaning(root, listing);
  }

  /** No engine's name starts another's. */
  lemma NamesApart(e: Engine, f: Engine)
    requires EngineName(e) <= EngineName(f)
    ensures e == f
  {
    var a, b := EngineName(e), EngineName(f);
    assert |a| >= 3 && a[0] == b[0] && a[2] == b[2];
    assert |a| == 7 ==> a[6] == b[6];
  }

  lemma DashAt(name: string, i: nat)
    requires i < |name| && name[i] == '-' && forall j :: i < j < |name| ==> name[j] != '-'
    ensures LastIndex(name, '-') == i
  {
  }

  lemma NameSplits(e: Engine, tag: string)
    requires '-' !in tag
    ensures ParseName(FolderName(e, tag)) == Some(Installed(e, tag, FolderName(e, tag)))
  {
    var name, n := FolderName(e, tag), |EngineName(e)|;
    DashAt(name, n);
    assert name[..n] == EngineName(e) && name[n + 1..] == tag;
    FromEngineName(e);
  }

  lemma DashHides(e: Engine, tag: string)
    requires '-' in tag
    ensures ParseName(FolderName(e, tag)).None?
  {
    var name, n := FolderName(e, tag), |EngineName(e)|;
    var i := LastIndex(name, '-');
    var k :| 0 <= k < |tag| && tag[k] == '-';
    assert name[n + 1 + k] == '-';
    assert n < i && EngineName(e) <= name[..i];
    if FromName(name[..i]).Some? {
      NamesApart(e, FromName(name[..i]).value);
    }
  }

  /** A folder named for an engine is found again under its tag exactly when the tag has no dash. */
  lemma NameReadBack(e: Engine, tag: string)
    ensures ParseName(FolderName(e, tag)) == Some(Installed(e, tag, FolderName(e, tag))) <==> '-' !in tag
  {
    if '-' in tag {
      DashHides(e, tag);
    } else {
      NameSplits(e, tag);
    }
  }
}
