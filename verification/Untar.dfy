/** Extraction of an archive next to whatever is already on disk
    (nerd/service/datatransfer/v1/tar.go:95-165). The archive is a list of entries; which
    system calls fail, and when the context is done, are parameters. */
module Untar {
  import opened Prelude
  import opened Naming

  /** A directory, as its path components. */
  type Dir = seq<string>

  datatype Path = Path(dir: Dir, name: string)

  datatype OpenResult = Created | AlreadyExists | Refused

  /** The names in use in a directory. */
  ghost function Names(files: map<Path, Bytes>, dirs: set<Dir>, dir: Dir): set<string> {
    (set p | p in files && p.dir == dir :: p.name)
    + (set d | d in dirs && d != [] && d[..|d| - 1] == dir :: d[|d| - 1])
  }

  lemma NameInUse(files: map<Path, Bytes>, dirs: set<Dir>, p: Path)
    requires Here(files, dirs, p)
    ensures p.name in Names(files, dirs, p.dir)
  {
    var d := p.dir + [p.name];
    if d in dirs {
      assert d[..|d| - 1] == p.dir && d[|d| - 1] == p.name;
    }
  }

  lemma LastApart(a: Dir, x: string, b: Dir, y: string)
    ensures a + [x] == b + [y] ==> a == b && x == y
  {
    if a + [x] == b + [y] {
      assert a == (a + [x])[..|a|] && b == (b + [y])[..|b|];
      assert (a + [x])[|a|] == x && (b + [y])[|b|] == y;
    }
  }

  /** The name is in use, by a file or a directory. */
  predicate Here(now: map<Path, Bytes>, dirs: set<Dir>, p: Path) {
    p in now || p.dir + [p.name] in dirs
  }

  predicate HasAncestors(dirs: set<Dir>, dir: Dir) {
    forall k :: 0 < k <= |dir| ==> dir[..k] in dirs
  }

  class FileSystem {
    var files: map<Path, Bytes>
    var dirs: set<Dir>

    constructor ()
      ensures files == map[] && dirs == {}
    {
      files, dirs := map[], {};
    }

    ghost predicate Valid()
      reads this
    {
      forall p :: p in files ==> p.dir + [p.name] !in dirs
    }

    predicate Exists(p: Path)
      reads this
    {
      Here(files, dirs, p)
    }

    /** os.OpenFile with O_CREATE|O_EXCL. */
    method OpenNew(p: Path, refused: set<Path>) returns (r: OpenResult)
      requires Valid()
      modifies this`files
      ensures Valid()
      ensures r == (if old(Exists(p)) then AlreadyExists else if p in refused then Refused else Created)
      ensures files == if r.Created? then old(files)[p := []] else old(files)
    {
      if Exists(p) {
        return AlreadyExists;
      }
      if p in refused {
        return Refused;
      }
      files := files[p := []];
      r := Created;
    }

    /** The k-th ancestor is a file, or is not there and cannot be made. */
    predicate Obstructed(refused: set<Dir>, dir: Dir, k: nat)
      requires k < |dir|
      reads this
    {
      Path(dir[..k], dir[k]) in files || (dir[..k + 1] !in dirs && dir[..k + 1] in refused)
    }

    /** os.MkdirAll: every ancestor becomes a directory, unless one of them is a file. */
    method MkdirAll(dir: Dir, refused: set<Dir>) returns (ok: bool)
      requires Valid()
      modifies this`dirs
      ensures Valid() && old(dirs) <= dirs
      ensures forall d :: d in dirs ==> d in old(dirs) || d <= dir
      ensures ok ==> HasAncestors(dirs, dir)
      ensures !ok ==> exists k: nat :: k < |dir| && Obstructed(refused, dir, k)
    {
      for k := 0 to |dir|
        invariant Valid() && old(dirs) <= dirs
        invariant forall d :: d in dirs ==> d in old(dirs) || d <= dir
        invariant forall j :: 0 < j <= k ==> dir[..j] in dirs
      {
        var d := dir[..k + 1];
        if Path(dir[..k], dir[k]) in files || (d !in dirs && d in refused) {
          assert Obstructed(refused, dir, k);
          return false;
        }
        assert d == dir[..k] + [dir[k]];
        forall p | p in files ensures p.dir + [p.name] != d {
          LastApart(p.dir, p.name, dir[..k], dir[k]);
        }
        dirs := dirs + {d};
      }
      ok := true;
    }
  }

  /* ---------- finding an unused name ---------- */

  function CandidatePath(p: Path, n: nat): Path {
    Path(p.dir, Candidate(p.name, n))
  }

  ghost function NotBelow(taken: set<string>, name: string): set<string> {
    set n | n in taken && !RankLess(n, name)
  }

  lemma FewerNamesAhead(taken: set<string>, name: string)
    requires name in taken
    ensures |NotBelow(taken, NextName(name))| < |NotBelow(taken, name)|
  {
    NextRanksHigher(name);
    hide NextName, Version;
    var now, later := NotBelow(taken, name), NotBelow(taken, NextName(name));
    assert name in now && name !in later;
    assert later <= now;
    SmallerSubset(later, now, name);
  }

  lemma SmallerSubset<T>(a: set<T>, b: set<T>, x: T)
    requires a <= b && x in b && x !in a
    ensures |a| < |b|
    decreases a
  {
    var rest := b - {x};
    assert a <= rest && |rest| == |b| - 1;
    SubsetSize(a, rest);
  }

  lemma {:induction false} SubsetSize<T>(a: set<T>, b: set<T>)
    requires a <= b
    ensures |a| <= |b|
    decreases a
  {
    if a != {} {
      var x :| x in a;
      SubsetSize(a - {x}, b - {x});
    }
  }

  /** The n-th candidate is the first one not in use. */
  ghost predicate FirstFree(files: map<Path, Bytes>, dirs: set<Dir>, p: Path, n: nat) {
    && !Here(files, dirs, CandidatePath(p, n))
    && forall k :: 0 <= k < n ==> Here(files, dirs, CandidatePath(p, k))
  }

  lemma NextIsFirstFree(files: map<Path, Bytes>, dirs: set<Dir>, p: Path, n: nat)
    requires Here(files, dirs, p) && FirstFree(files, dirs, Path(p.dir, NextName(p.name)), n)
    ensures FirstFree(files, dirs, p, n + 1)
    ensures CandidatePath(p, n + 1) == CandidatePath(Path(p.dir, NextName(p.name)), n)
  {
    hide NextName, Here;
    var next := Path(p.dir, NextName(p.name));
    assert CandidatePath(p, n + 1) == CandidatePath(next, n);
    forall k | 0 <= k < n + 1 ensures Here(files, dirs, CandidatePath(p, k)) {
      if k > 0 {
        assert CandidatePath(p, k) == CandidatePath(next, k - 1);
      }
    }
  }

  /** safeFilePath: creates the first of the names name, name_(1), name_(2), ... that is not
      in use; it ends whatever finite set of names is in use. */
  method SafeFilePath(fs: FileSystem, p: Path, refused: set<Path>)
      returns (r: Option<Path>, ghost tried: nat)
    requires fs.Valid()
    modifies fs`files
    ensures fs.Valid()
    ensures FirstFree(old(fs.files), fs.dirs, p, tried)
    ensures r == if CandidatePath(p, tried) in refused then None else Some(CandidatePath(p, tried))
    ensures fs.files == if r.Some? then old(fs.files)[r.value := []] else old(fs.files)
    decreases |NotBelow(Names(fs.files, fs.dirs, p.dir), p.name)|
  {
    var attempt := fs.OpenNew(p, refused);
    tried := 0;
    hide NextName, Here, Names, NotBelow, FileSystem.Valid;
    match attempt {
      case Created => r := Some(p);
      case Refused => r := None;
      case AlreadyExists =>
        hide FirstFree, CandidatePath;
        NameInUse(fs.files, fs.dirs, p);
        FewerNamesAhead(Names(fs.files, fs.dirs, p.dir), p.name);
        ghost var rest: nat;
        r, rest := SafeFilePath(fs, Path(p.dir, NextName(p.name)), refused);
        NextIsFirstFree(old(fs.files), fs.dirs, p, rest);
        tried := rest + 1;
    }
  }

  /* ---------- the extraction loop ---------- */

  /** A header, the bytes copied into its file, and whether copying them or setting the
      file's times ended in an error. */
  datatype Entry = Entry(path: Path, size: nat, data: Bytes, copyFails: bool, timesFail: bool)

  /** How the environment behaves. */
  datatype World = World(
    doneFrom: Option<nat>,   // from which turn on the context is done
    headerFails: bool,       // the archive ends in a bad header
    refusedFiles: set<Path>,
    refusedDirs: set<Dir>)

  /* `was` are the files at the start, `now` those at some later point; entry i has been put at
     placed[i], after `tried[i]` names that were in use. */

  ghost predicate Kept(was: map<Path, Bytes>, now: map<Path, Bytes>) {
    forall p :: p in was ==> p in now && now[p] == was[p]
  }

  ghost predicate OnlyPlaced(was: map<Path, Bytes>, now: map<Path, Bytes>, placed: seq<Path>) {
    forall p :: p in now ==> p in was || p in placed
  }

  /** The i-th entry is in a new file of its own, under the first name that was free, with
      exactly the bytes the archive gave for it. */
  ghost predicate Landed(was: map<Path, Bytes>, now: map<Path, Bytes>, dirs: set<Dir>, e: Entry,
                         placed: seq<Path>, tried: seq<nat>, i: nat)
    requires i < |placed| == |tried|
  {
    && placed[i] == CandidatePath(e.path, tried[i])
    && placed[i] !in was && placed[i] !in placed[..i]
    && placed[i] in now && now[placed[i]] == e.data
    && forall n :: 0 <= n < tried[i] ==> Blocked(was, dirs, placed[..i], CandidatePath(e.path, n))
  }

  ghost predicate Blocked(was: map<Path, Bytes>, dirs: set<Dir>, earlier: seq<Path>, p: Path) {
    p in was || p in earlier || p.dir + [p.name] in dirs
  }

  ghost predicate AllLanded(was: map<Path, Bytes>, now: map<Path, Bytes>, dirs: set<Dir>,
                            entries: seq<Entry>, placed: seq<Path>, tried: seq<nat>)
  {
    && |placed| == |tried| <= |entries|
    && forall i :: 0 <= i < |placed| ==> Landed(was, now, dirs, entries[i], placed, tried, i)
  }

  predicate Sound(e: Entry) {
    |e.data| == e.size && !e.copyFails && !e.timesFail
  }

  lemma EarlierStayLanded(was: map<Path, Bytes>, now: map<Path, Bytes>, dirs: set<Dir>, later: set<Dir>,
                          entries: seq<Entry>, placed: seq<Path>, tried: seq<nat>, p: Path, data: Bytes,
                          n: nat, i: nat)
    requires AllLanded(was, now, dirs, entries, placed, tried) && i < |placed|
    requires dirs <= later && p !in now
    ensures Landed(was, now[p := data], later, entries[i], placed + [p], tried + [n], i)
  {
    hide CandidatePath;
    assert Landed(was, now, dirs, entries[i], placed, tried, i);
    assert (placed + [p])[..i] == placed[..i];
  }

  lemma NothingPlaced(was: map<Path, Bytes>, dirs: set<Dir>, entries: seq<Entry>)
    ensures Kept(was, was) && OnlyPlaced(was, was, []) && AllLanded(was, was, dirs, entries, [], [])
  {
  }

  lemma WiderDirs(was: map<Path, Bytes>, now: map<Path, Bytes>, dirs: set<Dir>, later: set<Dir>,
                  entries: seq<Entry>, placed: seq<Path>, tried: seq<nat>)
    requires AllLanded(was, now, dirs, entries, placed, tried) && dirs <= later
    ensures AllLanded(was, now, later, entries, placed, tried)
  {
    hide CandidatePath;
    forall i | 0 <= i < |placed| ensures Landed(was, now, later, entries[i], placed, tried, i) {
      assert Landed(was, now, dirs, entries[i], placed, tried, i);
    }
  }

  lemma NewOneLands(was: map<Path, Bytes>, now: map<Path, Bytes>, dirs: set<Dir>,
                    e: Entry, placed: seq<Path>, tried: seq<nat>, n: nat)
    requires Kept(was, now) && OnlyPlaced(was, now, placed) && |placed| == |tried|
    requires forall i :: 0 <= i < |placed| ==> placed[i] in now
    requires FirstFree(now, dirs, e.path, n)
    ensures
      var p := CandidatePath(e.path, n);
      Landed(was, now[p := e.data], dirs, e, placed + [p], tried + [n], |placed|)
  {
    hide CandidatePath;
    var p := CandidatePath(e.path, n);
    assert (placed + [p])[..|placed|] == placed;
    assert forall k :: 0 <= k < n ==> Blocked(was, dirs, placed, CandidatePath(e.path, k));
  }

  lemma Place(was: map<Path, Bytes>, now: map<Path, Bytes>, dirs: set<Dir>, later: set<Dir>,
              entries: seq<Entry>, placed: seq<Path>, tried: seq<nat>, n: nat)
    requires |placed| < |entries|
    requires AllLanded(was, now, dirs, entries, placed, tried)
    requires Kept(was, now) && OnlyPlaced(was, now, placed) && dirs <= later
    requires FirstFree(now, later, entries[|placed|].path, n)
    ensures
      var e := entries[|placed|];
      var p := CandidatePath(e.path, n);
      && AllLanded(was, now[p := e.data], later, entries, placed + [p], tried + [n])
      && Kept(was, now[p := e.data]) && OnlyPlaced(was, now[p := e.data], placed + [p])
  {
    var e := entries[|placed|];
    var p := CandidatePath(e.path, n);
    hide CandidatePath;
    LandedIsThere(was, now, dirs, entries, placed, tried);
    NewOneLands(was, now, later, e, placed, tried, n);
    hide Landed, Here, Kept, OnlyPlaced;
    AddingIsNew(was, now, later, placed, p, e.data);
    forall i | 0 <= i < |placed|
      ensures Landed(was, now[p := e.data], later, entries[i], placed + [p], tried + [n], i)
    {
      EarlierStayLanded(was, now, dirs, later, entries, placed, tried, p, e.data, n, i);
    }
    OneMoreLanded(was, now[p := e.data], later, entries, placed + [p], tried + [n]);
    hide AllLanded;
  }

  lemma OneMoreLanded(was: map<Path, Bytes>, now: map<Path, Bytes>, dirs: set<Dir>, entries: seq<Entry>,
                      placed: seq<Path>, tried: seq<nat>)
    requires 0 < |placed| == |tried| <= |entries|
    requires forall i :: 0 <= i < |placed| - 1 ==> Landed(was, now, dirs, entries[i], placed, tried, i)
    requires Landed(was, now, dirs, entries[|placed| - 1], placed, tried, |placed| - 1)
    ensures AllLanded(was, now, dirs, entries, placed, tried)
  {
    hide Landed;
  }

  lemma LandedIsThere(was: map<Path, Bytes>, now: map<Path, Bytes>, dirs: set<Dir>,
                      entries: seq<Entry>, placed: seq<Path>, tried: seq<nat>)
    requires AllLanded(was, now, dirs, entries, placed, tried)
    ensures forall i :: 0 <= i < |placed| ==> placed[i] in now
  {
    forall i | 0 <= i < |placed| ensures placed[i] in now {
      assert Landed(was, now, dirs, entries[i], placed, tried, i);
    }
  }

  lemma AddingIsNew(was: map<Path, Bytes>, now: map<Path, Bytes>, dirs: set<Dir>,
                    placed: seq<Path>, p: Path, data: Bytes)
    requires Kept(was, now) && OnlyPlaced(was, now, placed) && !Here(now, dirs, p)
    ensures p !in now && Kept(was, now[p := data]) && OnlyPlaced(was, now[p := data], placed + [p])
  {
  }

  /** The directories made are ancestors of the first `n` entries' files. */
  ghost predicate OnlyAncestors(was: set<Dir>, now: set<Dir>, entries: seq<Entry>, n: nat)
    requires n <= |entries|
  {
    forall d :: d in now ==> d in was || exists i :: 0 <= i < n && d <= entries[i].path.dir
  }

  lemma NothingMade(dirs: set<Dir>, entries: seq<Entry>)
    ensures OnlyAncestors(dirs, dirs, entries, 0)
  {
  }

  lemma AncestorsGrow(was: set<Dir>, dirs: set<Dir>, later: set<Dir>, entries: seq<Entry>, n: nat)
    requires n < |entries| && OnlyAncestors(was, dirs, entries, n)
    requires forall d :: d in later ==> d in dirs || d <= entries[n].path.dir
    ensures OnlyAncestors(was, later, entries, n + 1)
  {
  }

  /** Why the loop ended. */
  datatype Stop = EndOfArchive | ContextDone | BadHeader | NoDirectory | NoFile | BadEntry

  /** How many entries were begun when `n` have been placed. */
  function Begun(n: nat, stop: Stop): nat {
    if stop.NoDirectory? || stop.NoFile? then n + 1 else n
  }

  /** The entries of the first `n` turns were whole, and the context was not done by then. */
  ghost predicate Passed(entries: seq<Entry>, w: World, n: nat) {
    && n <= |entries| && (forall i :: 0 <= i < n ==> Sound(entries[i]))
    && (w.doneFrom.None? || w.doneFrom.value >= n)
  }

  predicate DoneBy(w: World, n: nat) {
    w.doneFrom.Some? && w.doneFrom.value <= n
  }

  /** Each way to end has its own cause, in the turn after the entries placed. */
  ghost predicate Because(fs: FileSystem, entries: seq<Entry>, w: World, n: nat, stop: Stop)
    reads fs
  {
    match stop
    case EndOfArchive => Passed(entries, w, n) && n == |entries| && !DoneBy(w, n) && !w.headerFails
    case ContextDone => Passed(entries, w, n) && DoneBy(w, n)
    case BadHeader => Passed(entries, w, n) && n == |entries| && !DoneBy(w, n) && w.headerFails
    case NoDirectory =>
      && Passed(entries, w, n) && n < |entries| && !DoneBy(w, n)
      && exists k: nat :: k < |entries[n].path.dir| && fs.Obstructed(w.refusedDirs, entries[n].path.dir, k)
    case NoFile =>
      && Passed(entries, w, n) && n < |entries| && !DoneBy(w, n) && HasAncestors(fs.dirs, entries[n].path.dir)
      && exists t: nat :: FirstFree(fs.files, fs.dirs, entries[n].path, t)
                       && CandidatePath(entries[n].path, t) in w.refusedFiles
    case BadEntry =>
      n > 0 && Passed(entries, w, n - 1) && n <= |entries| && !DoneBy(w, n - 1) && !Sound(entries[n - 1])
  }

  /** No two causes come together, so the loop ends in one way exactly if its cause is met. */
  lemma CausesExclude(fs: FileSystem, entries: seq<Entry>, w: World, n: nat, a: Stop, b: Stop)
    requires fs.Valid() && Because(fs, entries, w, n, a) && Because(fs, entries, w, n, b)
    ensures a == b
  {
    hide FirstFree, CandidatePath;
    if n < |entries| && HasAncestors(fs.dirs, entries[n].path.dir) {
      var dir := entries[n].path.dir;
      forall k: nat | k < |dir| ensures !fs.Obstructed(w.refusedDirs, dir, k) {
        assert dir[..k] + [dir[k]] == dir[..k + 1];
      }
    }
  }

  /** untardir: no file that was there before changes, each entry reached lands in a new file
      of its own, nothing else appears, and it goes on until the archive has ended or one of
      the causes it has for giving up is met. */
  method Extract(fs: FileSystem, entries: seq<Entry>, w: World)
      returns (stop: Stop, ghost placed: seq<Path>, ghost tried: seq<nat>)
    requires fs.Valid()
    modifies fs
    ensures fs.Valid()
    ensures Kept(old(fs.files), fs.files) && OnlyPlaced(old(fs.files), fs.files, placed)
    ensures AllLanded(old(fs.files), fs.files, fs.dirs, entries, placed, tried)
    ensures Because(fs, entries, w, |placed|, stop)
    ensures OnlyAncestors(old(fs.dirs), fs.dirs, entries, Begun(|placed|, stop))
  {
    hide Kept, OnlyPlaced, AllLanded, CandidatePath, FirstFree, FileSystem.Obstructed, HasAncestors, OnlyAncestors;
    var i := 0;
    placed, tried := [], [];
    ghost var was := fs.files;
    NothingPlaced(was, fs.dirs, entries);
    NothingMade(fs.dirs, entries);
    while true
      invariant fs.Valid() && was == old(fs.files)
      invariant Kept(was, fs.files) && OnlyPlaced(was, fs.files, placed)
      invariant AllLanded(was, fs.files, fs.dirs, entries, placed, tried)
      invariant i == |placed| && Passed(entries, w, i)
      invariant OnlyAncestors(old(fs.dirs), fs.dirs, entries, i)
      decreases |entries| - i
    {
      if w.doneFrom.Some? && w.doneFrom.value <= i {
        return ContextDone, placed, tried;
      }
      if i == |entries| {
        return if w.headerFails then BadHeader else EndOfArchive, placed, tried;
      }
      var e := entries[i];
      ghost var now, dirs := fs.files, fs.dirs;
      var made := fs.MkdirAll(e.path.dir, w.refusedDirs);
      AncestorsGrow(old(fs.dirs), dirs, fs.dirs, entries, i);
      if !made {
        WiderDirs(was, now, dirs, fs.dirs, entries, placed, tried);
        return NoDirectory, placed, tried;
      }
      var file, n := SafeFilePath(fs, e.path, w.refusedFiles);
      if file.None? {
        WiderDirs(was, now, dirs, fs.dirs, entries, placed, tried);
        return NoFile, placed, tried;
      }
      fs.files := fs.files[file.value := e.data];
      assert fs.files == now[file.value := e.data];
      Place(was, now, dirs, fs.dirs, entries, placed, tried, n);
      placed, tried := placed + [file.value], tried + [n];
      if e.copyFails || |e.data| != e.size || e.timesFail {
        return BadEntry, placed, tried;
      }
      i := i + 1;
    }
  }
}
