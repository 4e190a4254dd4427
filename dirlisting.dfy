/** Directory listing as the web front end uses it (ansible.go, `readdir`,
    `checkDir`, `checkFile`): keep the entries a kind test accepts, keep only
    names ending in a suffix when one is given, strip that suffix and sort. */
module DirListing {
  import opened GoStrings
  import opened StringSort

  /** Go's os.FileMode: type bits at the top, permission bits at the bottom. */
  type FileMode = bv32

  const ModeDir: FileMode := 0x8000_0000
  const ModeSymlink: FileMode := 0x0800_0000
  const ModeDevice: FileMode := 0x0400_0000
  const ModeNamedPipe: FileMode := 0x0200_0000
  const ModeSocket: FileMode := 0x0100_0000
  const ModeCharDevice: FileMode := 0x0020_0000
  const ModeIrregular: FileMode := 0x0008_0000
  const ModeType: FileMode :=
    ModeDir | ModeSymlink | ModeNamedPipe | ModeSocket | ModeDevice | ModeCharDevice | ModeIrregular
  const ModePerm: FileMode := 0x1FF  // 0o777

  /** What kind of file a directory entry is (as lstat reports it, so a
      symbolic link is a link, whatever it points to). */
  datatype Kind = Directory | Regular | Symlink | NamedPipe | Socket | Device | CharDevice | Irregular

  /** The type bits Go sets in the mode of each kind of file. */
  function TypeBits(k: Kind): FileMode {
    match k
    case Directory => ModeDir
    case Regular => 0
    case Symlink => ModeSymlink
    case NamedPipe => ModeNamedPipe
    case Socket => ModeSocket
    case Device => ModeDevice
    case CharDevice => ModeDevice | ModeCharDevice
    case Irregular => ModeIrregular
  }

  /** One element of what Readdir returns: an os.FileInfo reduced to the
      name and the mode. */
  datatype Entry = Entry(name: string, kind: Kind, perm: FileMode)

  function Mode(e: Entry): FileMode {
    TypeBits(e.kind) | (e.perm & ModePerm)
  }

  /** checkDir: f.Mode().IsDir() holds exactly of directories. */
  function CheckDir(e: Entry): (r: bool)
    ensures r <==> e.kind == Directory
  {
    Mode(e) & ModeDir != 0
  }

  /** checkFile: f.Mode().IsRegular() (no type bit set) holds exactly of
      regular files. */
  function CheckFile(e: Entry): (r: bool)
    ensures r <==> e.kind == Regular
  {
    Mode(e) & ModeType == 0
  }

  /** No entry passes both kind tests. */
  lemma ChecksDisjoint(e: Entry)
    ensures !(CheckDir(e) && CheckFile(e))
  {
  }

  /** The outcome of opening the directory and reading all its entries. */
  datatype DirRead = OpenFailed | ReaddirFailed | Entries(entries: seq<Entry>)

  /** Whether an entry contributes a name to the listing. */
  predicate Kept(e: Entry, check: Entry -> bool, suffix: string) {
    check(e) && (suffix == "" || HasSuffix(e.name, suffix))
  }

  /** The names the loop collects, in directory order, before sorting. */
  function Listing(es: seq<Entry>, check: Entry -> bool, suffix: string): seq<string>
    decreases |es|
  {
    if es == [] then []
    else
      var last := es[|es| - 1];
      Listing(es[..|es| - 1], check, suffix)
        + (if Kept(last, check, suffix) then [TrimSuffix(last.name, suffix)] else [])
  }

  /** The entries a test accepts, in order: a reference definition for the
      listing without a suffix. */
  function Filter(es: seq<Entry>, check: Entry -> bool): (r: seq<Entry>)
    ensures forall e :: e in r ==> e in es && check(e)
  {
    if es == [] then []
    else (if check(es[0]) then [es[0]] else []) + Filter(es[1..], check)
  }

  lemma {:induction false} FilterNoneAccepted(es: seq<Entry>, check: Entry -> bool)
    requires forall e :: e in es ==> !check(e)
    ensures Filter(es, check) == []
    decreases |es|
  {
    if es != [] {
      assert es[0] in es;
      FilterNoneAccepted(es[1..], check);
    }
  }

  function Names(es: seq<Entry>): seq<string> {
    seq(|es|, i requires 0 <= i < |es| => es[i].name)
  }

  lemma {:induction false} ListingLength(es: seq<Entry>, check: Entry -> bool, suffix: string)
    ensures |Listing(es, check, suffix)| <= |es|
    decreases |es|
  {
    if es != [] { ListingLength(es[..|es| - 1], check, suffix); }
  }

  /** Every listed name comes from a kept entry, with the suffix stripped. */
  lemma {:induction false} ListingProvenance(es: seq<Entry>, check: Entry -> bool, suffix: string, x: string)
    requires x in Listing(es, check, suffix)
    ensures exists e :: e in es && Kept(e, check, suffix) && x == TrimSuffix(e.name, suffix)
    decreases |es|
  {
    var init := es[..|es| - 1];
    var last := es[|es| - 1];
    if x in Listing(init, check, suffix) {
      ListingProvenance(init, check, suffix, x);
      var e :| e in init && Kept(e, check, suffix) && x == TrimSuffix(e.name, suffix);
      assert e in es;
    } else {
      assert Kept(last, check, suffix) && x == TrimSuffix(last.name, suffix);
    }
  }

  /** Every kept entry contributes its stripped name. */
  lemma {:induction false} ListingComplete(es: seq<Entry>, check: Entry -> bool, suffix: string, e: Entry)
    requires e in es && Kept(e, check, suffix)
    ensures TrimSuffix(e.name, suffix) in Listing(es, check, suffix)
    decreases |es|
  {
    var init := es[..|es| - 1];
    if e != es[|es| - 1] {
      assert es == init + [es[|es| - 1]];
      assert e in init;
      ListingComplete(init, check, suffix, e);
    }
  }

  lemma {:induction false} FilterAppend(a: seq<Entry>, b: seq<Entry>, check: Entry -> bool)
    ensures Filter(a + b, check) == Filter(a, check) + Filter(b, check)
    decreases |a|
  {
    if a != [] {
      assert (a + b)[1..] == a[1..] + b;
      FilterAppend(a[1..], b, check);
      assert (a + b)[0] == a[0];
    } else {
      assert a + b == b;
    }
  }

  /** With no suffix nothing is stripped and nothing is dropped by name: the
      loop collects exactly the names of the entries the test accepts. */
  lemma {:induction false} ListingWithoutSuffix(es: seq<Entry>, check: Entry -> bool)
    ensures Listing(es, check, "") == Names(Filter(es, check))
    decreases |es|
  {
    if es != [] {
      var init, last := es[..|es| - 1], es[|es| - 1];
      ListingWithoutSuffix(init, check);
      assert es == init + [last];
      FilterAppend(init, [last], check);
      assert [last][1..] == [];
      TrimEmptySuffix(last.name);
    }
  }

  /** readdir: a failure to open or read the directory gives an empty list;
      otherwise the kept names, suffix stripped, in ascending order. */
  method Readdir(dir: DirRead, check: Entry -> bool, suffix: string) returns (list: seq<string>)
    ensures !dir.Entries? ==> list == []
    ensures dir.Entries? ==> Sorted(list) && multiset(list) == multiset(Listing(dir.entries, check, suffix))
    ensures dir.Entries? ==> |list| <= |dir.entries|
    ensures forall x :: x in list <==>
      dir.Entries? && exists e :: e in dir.entries && Kept(e, check, suffix) && x == TrimSuffix(e.name, suffix)
    ensures dir.Entries? && suffix == "" ==> multiset(list) == multiset(Names(Filter(dir.entries, check)))
  {
    list := [];
    if dir.OpenFailed? {
      return;
    }
    if dir.ReaddirFailed? {
      return;
    }
    var fi := dir.entries;
    for i := 0 to |fi|
      invariant list == Listing(fi[..i], check, suffix)
    {
      assert fi[..i + 1][..i] == fi[..i];
      var f := fi[i];
      if check(f) {
        if suffix != "" && !HasSuffix(f.name, suffix) {
          continue;
        }
        list := list + [TrimSuffix(f.name, suffix)];
      }
    }
    assert fi[..|fi|] == fi;
    ghost var collected := list;
    list := SortStrings(list);
    ListingLength(fi, check, suffix);
    assert |list| == |multiset(list)| == |multiset(collected)| == |collected|;
    forall x | x in list
      ensures exists e :: e in fi && Kept(e, check, suffix) && x == TrimSuffix(e.name, suffix)
    {
      assert x in multiset(collected);
      ListingProvenance(fi, check, suffix, x);
    }
    forall e | e in fi && Kept(e, check, suffix) ensures TrimSuffix(e.name, suffix) in list {
      ListingComplete(fi, check, suffix, e);
      assert TrimSuffix(e.name, suffix) in multiset(list);
    }
    if suffix == "" {
      ListingWithoutSuffix(fi, check);
    }
  }
}
