/** Upload and download together: what a successful download of a committed dataset writes
    is the archive that was uploaded, whatever the interleavings of the two runs, whether
    chunks repeat, were stored before, or were stored by two workers at once. */
module RoundTrip {
  import opened Prelude
  import opened Pipes
  import Index
  import F = FanOut
  import FS = FanOutSafety
  import UP = UploadProcess
  import US = UploadSafety
  import DP = DownloadProcess
  import DS = DownloadSafety
  import UL = UploadLiveness
  import DL = DownloadLiveness
  import T = Untar

  /** The hash has no collision between a chunk that was uploaded and one that was fetched. */
  ghost predicate CollisionFree(hash: Bytes -> Index.Key, uploaded: seq<Bytes>, fetched: seq<Bytes>) {
    forall a, b :: a in uploaded && b in fetched && hash(a) == hash(b) ==> a == b
  }

  /** The tar reader finds the end of the archive only when it has all of it. */
  ghost predicate SelfDelimiting(archive: Bytes, ends: Bytes -> bool) {
    forall got :: got <= archive && ends(got) ==> got == archive
  }

  lemma ConcatOfPrefix(parts: seq<Bytes>, n: nat)
    requires n <= |parts|
    ensures Concat(parts[..n]) <= Concat(parts)
    ensures n == |parts| ==> Concat(parts[..n]) == Concat(parts)
  {
    assert parts == parts[..n] + parts[n..];
    ConcatAppend(parts[..n], parts[n..]);
  }

  /** The index of a committed dataset reads back as the keys of its chunks. */
  lemma CommittedIndexParses(c: UP.Config, u: UP.State)
    requires c.fan.mode.Upload? && US.Committed(c, u)
    ensures Index.Parse(u.indexObject.value).keys == FS.Keys(c.fan, u.fan.items)
    ensures Index.Parse(u.indexObject.value).complete && Index.Left(u.indexObject.value) == []
  {
    var items := u.fan.items;
    var keys: seq<Index.Key> := seq(|items|, j requires 0 <= j < |items| => c.fan.hash(items[j]));
    Index.ParseInvertsText(keys);
    Index.WrittenLinesFit(keys);
    assert FS.Keys(c.fan, items) == keys;
  }

  /** Contents fetched for the committed index are the uploaded chunks themselves. */
  lemma FetchedAreUploaded(uc: UP.Config, u: UP.State, dc: DP.Config, parts: seq<Bytes>)
    requires uc.fan.mode.Upload? && US.Committed(uc, u)
    requires dc.fan.hash == uc.fan.hash && dc.index == u.indexObject && DS.ContentsOf(dc, parts)
    requires CollisionFree(uc.fan.hash, u.fan.items, parts)
    ensures |parts| <= |u.fan.items| && parts == u.fan.items[..|parts|]
  {
    CommittedIndexParses(uc, u);
    forall j | 0 <= j < |parts| ensures parts[j] == u.fan.items[j] {
      assert uc.fan.hash(parts[j]) == FS.Keys(uc.fan, u.fan.items)[j];
      assert u.fan.items[j] in u.fan.items && parts[j] in parts;
    }
  }

  /** start of an upload returned nil in state `u`; `d` is any state of any run of a download
      of the index it stored. The download has only ever extracted a beginning of the
      uploaded archive, and if it returned nil under a live context, all of it. */
  lemma DownloadInvertsUpload(uc: UP.Config, u: UP.State, dc: DP.Config, d: DP.State)
    requires US.Reachable(uc, u) && u.main == UP.MainReturned(false)
    requires DS.Reachable(dc, d) && dc.index == u.indexObject && dc.fan.hash == uc.fan.hash
    requires uc.fan.mode.Upload?
    requires CollisionFree(uc.fan.hash, u.fan.items, d.fan.out)
    requires SelfDelimiting(uc.archive, dc.ends)
    ensures d.got <= uc.archive
    ensures d.main == DP.MainReturned(false, true) ==> d.got == uc.archive
  {
    US.NilMeansAcknowledged(uc, u);
    DS.GotIsPrefix(dc, d);
    FetchedAreUploaded(uc, u, dc, d.fan.out);
    ConcatOfPrefix(u.fan.items, |d.fan.out|);
    if d.main == DP.MainReturned(false, true) && !dc.ends(d.got) {
      DS.LiveNilMeansComplete(dc, d);
      CommittedIndexParses(uc, u);
    }
  }

  /** The chunks of a committed dataset are in the store it was uploaded to. */
  lemma CommittedChunksAreStored(c: UP.Config, u: UP.State)
    requires US.Reachable(c, u) && US.Committed(c, u) && c.fan.mode.Upload?
    ensures FS.WellKeyed(c.fan, u.fan.store)
    ensures forall k :: k in FS.Keys(c.fan, u.fan.items) ==> k in u.fan.store
  {
    US.ReachableInv(c, u);
    FS.ReachableInv(c.fan, u.fan);
    hide FS.Reachable, US.Reachable, FS.InOrder, FS.WorkersMatch, FS.ProgressMatches;
    forall k | k in FS.Keys(c.fan, u.fan.items) ensures k in u.fan.store {
      var j :| 0 <= j < |u.fan.items| && FS.Keys(c.fan, u.fan.items)[j] == k;
    }
  }

  /** Both ends can succeed: every archive, however it is cut, can be uploaded and fetched back
      from the store it was uploaded to, with start returning nil each time, whichever calls
      fail up to two times each on either way. */
  lemma EveryArchiveCanTravel(uc: UP.Config, store: map<Bytes, Bytes>, parts: seq<Bytes>,
                              fan: F.Config, ends: Bytes -> bool, up: Hiccups, down: Hiccups)
      returns (u: UP.State, dc: DP.Config, d: DP.State)
    requires uc.fan.mode.Upload? && FS.WellKeyed(uc.fan, store)
    requires uc.archive == Concat(parts) && [] !in parts
    requires Survivable(up, |parts|) && Survivable(down, |parts|)
    requires fan.mode.Download? && fan.hash == uc.fan.hash && SelfDelimiting(uc.archive, ends)
    ensures US.Reachable(uc, u) && u.main == UP.MainReturned(false) && u.fan.items == parts
    ensures dc == DP.Config(fan, u.indexObject, ends)
    ensures DS.Reachable(dc, d) && d.main == DP.MainReturned(false, true)
    ensures CollisionFree(uc.fan.hash, u.fan.items, d.fan.out) ==> d.got == uc.archive
  {
    u := UL.AnyArchiveCanBeCommitted(uc, store, parts, up);
    dc := DP.Config(fan, u.indexObject, ends);
    CommittedChunksAreStored(uc, u);
    var items := u.fan.items;
    var keys: seq<Index.Key> := seq(|items|, j requires 0 <= j < |items| => uc.fan.hash(items[j]));
    assert FS.Keys(uc.fan, items) == keys;
    hide US.Reachable, DS.Reachable;
    d := DL.AnyDatasetCanBeFetched(dc, u.fan.store, keys, down);
    if CollisionFree(uc.fan.hash, u.fan.items, d.fan.out) {
      DownloadInvertsUpload(uc, u, dc, d);
    }
  }

  /* ---------- down to the files ---------- */

  /** How a tar reader splits what has arrived into entries: as it would split the whole
      archive, but for the last entry, of which only a beginning may be there. */
  ghost predicate SplitsSelfDelimiting(split: Bytes -> seq<T.Entry>, archive: Bytes) {
    forall got :: got <= archive ==> EntriesSoFar(split(got), split(archive))
  }

  ghost predicate EntriesSoFar(es: seq<T.Entry>, all: seq<T.Entry>) {
    && |es| <= |all|
    && forall i :: 0 <= i < |es| ==>
         && es[i].path == all[i].path && es[i].size == all[i].size && es[i].data <= all[i].data
         && (i < |es| - 1 ==> es[i] == all[i])
  }

  /** The i-th entry of the archive is in a file of its own, with a beginning of its contents. */
  ghost predicate InFile(was: map<T.Path, Bytes>, now: map<T.Path, Bytes>, all: seq<T.Entry>,
                         placed: seq<T.Path>, i: nat)
    requires i < |placed| <= |all|
  {
    && placed[i] !in was && placed[i] !in placed[..i]
    && placed[i] in now && now[placed[i]] <= all[i].data
  }

  lemma PlacedAreUploaded(was: map<T.Path, Bytes>, now: map<T.Path, Bytes>, dirs: set<T.Dir>, es: seq<T.Entry>,
                          all: seq<T.Entry>, placed: seq<T.Path>, tried: seq<nat>, i: nat)
    requires T.AllLanded(was, now, dirs, es, placed, tried) && EntriesSoFar(es, all) && i < |placed|
    ensures InFile(was, now, all, placed, i) && placed[i] in now
    ensures es == all ==> now[placed[i]] == all[i].data
  {
    hide T.CandidatePath;
    assert T.Landed(was, now, dirs, es[i], placed, tried, i);
  }

  /** Upload, download and extraction together: nothing that was on disk changes, and the files
      made hold beginnings of the uploaded entries' contents, whatever goes wrong; if the
      download returned nil under a live context and extraction reached the archive's end,
      every uploaded entry is there as a whole. */
  method ExtractDownload(ghost uc: UP.Config, ghost u: UP.State, ghost dc: DP.Config, d: DP.State,
                         split: Bytes -> seq<T.Entry>, fs: T.FileSystem, w: T.World)
      returns (stop: T.Stop, ghost placed: seq<T.Path>)
    requires US.Reachable(uc, u) && u.main == UP.MainReturned(false)
    requires DS.Reachable(dc, d) && dc.index == u.indexObject && dc.fan.hash == uc.fan.hash
    requires uc.fan.mode.Upload?
    requires CollisionFree(uc.fan.hash, u.fan.items, d.fan.out)
    requires SelfDelimiting(uc.archive, dc.ends) && SplitsSelfDelimiting(split, uc.archive)
    requires fs.Valid()
    modifies fs
    ensures T.Kept(old(fs.files), fs.files) && T.OnlyPlaced(old(fs.files), fs.files, placed)
    ensures |placed| <= |split(uc.archive)|
    ensures forall i :: 0 <= i < |placed| ==> InFile(old(fs.files), fs.files, split(uc.archive), placed, i)
    ensures d.main == DP.MainReturned(false, true) && stop.EndOfArchive? ==>
      && |placed| == |split(uc.archive)|
      && forall i :: 0 <= i < |placed| ==>
           placed[i] in fs.files && fs.files[placed[i]] == split(uc.archive)[i].data
  {
    DownloadInvertsUpload(uc, u, dc, d);
    ghost var was, all := fs.files, split(uc.archive);
    var entries := split(d.got);
    assert EntriesSoFar(entries, all);
    hide US.Reachable, DS.Reachable, SplitsSelfDelimiting, EntriesSoFar, InFile, T.AllLanded, T.Kept, T.OnlyPlaced;
    ghost var tried;
    stop, placed, tried := T.Extract(fs, entries, w);
    LandedWithin(was, fs.files, fs.dirs, entries, all, placed, tried);
    forall i | 0 <= i < |placed|
      ensures InFile(was, fs.files, all, placed, i)
      ensures entries == all ==> placed[i] in fs.files && fs.files[placed[i]] == all[i].data
    {
      PlacedAreUploaded(was, fs.files, fs.dirs, entries, all, placed, tried, i);
    }
  }

  lemma LandedWithin(was: map<T.Path, Bytes>, now: map<T.Path, Bytes>, dirs: set<T.Dir>, es: seq<T.Entry>,
                     all: seq<T.Entry>, placed: seq<T.Path>, tried: seq<nat>)
    requires T.AllLanded(was, now, dirs, es, placed, tried) && EntriesSoFar(es, all)
    ensures |placed| <= |es| <= |all|
  {
  }
}
