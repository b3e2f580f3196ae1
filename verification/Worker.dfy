/** Executing one task run and reporting on it (nerd/service/working/v1/working.go:107-219,
    utils.go, and Upload in nerd/service/datatransfer/v1/upload.go:24-43). What the process,
    the disk and the server do is a parameter; an upload is a finished run of the pipeline. */
module Worker {
  import opened Prelude
  import Q = Queue
  import U = UploadProcess
  import US = UploadSafety
  import FS = FanOutSafety

  /** A directory: what is under each of its names. */
  type Files = map<string, Bytes>

  /** The tar stream of a directory. */
  type Packer = Files -> Bytes

  datatype Exit =
    | Succeeded(state: string)
    | ExitError(status: string, stderr: string)   // including a kill after a heartbeat
    | WaitFails(message: string)

  datatype UploadRun = UploadRun(dataset: Option<string>, config: U.Config, final: U.State)

  /** A directory is opened and its names are read. */
  datatype Listing = OpenFails | NamesFail | Listed

  /** What RemoveContents meets: the names in the order they come, and those that cannot be
      removed, with what is left under them. */
  datatype Clearing = Clearing(listing: Listing, names: seq<string>, stuck: Files)

  /** Everything the execution of one run meets. */
  datatype Execution = Execution(
    startFails: Option<string>,
    exit: Exit,
    process: Files -> Files,      // what the process makes of the output directory
    listing: Listing,             // in IsEmptyDir
    upload: UploadRun,
    clearing: Clearing)

  datatype Report =
    | Success(task: int, result: string, dataset: string)
    | Failure(task: int, code: string, message: string)

  const UNEXPECTED := "ERR_UNEXPECTED"
  const UPLOAD_CODE := "0"
  const UPLOAD_MESSAGE := "failed to output upload dataset"

  /** The pipeline ran on the output directory until start returned. */
  ghost predicate RanOn(pack: Packer, files: Files, up: UploadRun) {
    && US.Reachable(up.config, up.final) && up.final.main.MainReturned?
    && up.config.archive == pack(files)
  }

  /** What the process leaves in the output directory. */
  function Made(files: Files, x: Execution): Files {
    if x.startFails.Some? then files else x.process(files)
  }

  ghost predicate Lists(names: seq<string>, files: Files) {
    forall k :: k in names <==> k in files
  }

  /** What the environment may do: an upload that is made is one of the pipeline's own runs,
      and a directory is listed as it is. */
  ghost predicate Faithful(pack: Packer, files: Files, x: Execution) {
    && (x.upload.dataset.Some? ==>
          x.upload.dataset.value != "" && RanOn(pack, Made(files, x), x.upload))
    && Lists(x.clearing.names, Made(files, x))
  }

  /** A dataset that holds exactly these files. */
  ghost predicate Holds(pack: Packer, files: Files, up: UploadRun) {
    && up.config.archive == pack(files)
    && up.final.acknowledged && US.Committed(up.config, up.final)
  }

  function Command(entrypoint: seq<string>, base: seq<string>, run: Q.Run): seq<string> {
    entrypoint + (if |run.command| > 0 then run.command else base)
  }

  /** There is something to execute: the run's own command, the worker's, or an entrypoint. */
  predicate Runnable(entrypoint: seq<string>, base: seq<string>, run: Q.Run) {
    run.command != [] || entrypoint != [] || base != []
  }

  /** The command begins with the entrypoint and ends in the run's own command, or in the
      worker's if the run has none; it is empty exactly if there is nothing to execute. */
  lemma CommandIsWhole(entrypoint: seq<string>, base: seq<string>, run: Q.Run)
    ensures
      var command := Command(entrypoint, base, run);
      && entrypoint <= command
      && (run.command != [] ==> command[|entrypoint|..] == run.command)
      && (run.command == [] ==> command[|entrypoint|..] == base)
      && (command != [] <==> Runnable(entrypoint, base, run))
  {
    assert Command(entrypoint, base, run)[|entrypoint|..] == if |run.command| > 0 then run.command else base;
  }

  /** The process was started and ended well. */
  predicate Exited(x: Execution) {
    x.startFails.None? && x.exit.Succeeded?
  }

  /* ---------- clearing the directory ---------- */

  /** The names are removed in order, up to the first that cannot be. */
  function Removed(files: Files, names: seq<string>, stuck: Files): Files {
    if names == [] then files
    else if names[0] in stuck then files[names[0] := stuck[names[0]]]
    else Removed(files - {names[0]}, names[1..], stuck)
  }

  function Cleared(files: Files, c: Clearing): Files {
    if c.listing.Listed? then Removed(files, c.names, c.stuck) else files
  }

  predicate Clears(c: Clearing) {
    c.listing.Listed? && forall k :: k in c.names ==> k !in c.stuck
  }

  /** Where the removing stops. */
  function FirstStuck(names: seq<string>, stuck: Files): (n: nat)
    ensures n <= |names| && forall i :: 0 <= i < n ==> names[i] !in stuck
    ensures n < |names| ==> names[n] in stuck
  {
    if names == [] || names[0] in stuck then 0 else 1 + FirstStuck(names[1..], stuck)
  }

  function Without(files: Files, names: seq<string>): Files {
    files - (set k | k in names)
  }

  lemma WithoutFirst(files: Files, names: seq<string>)
    requires names != []
    ensures Without(files, names) == Without(files - {names[0]}, names[1..])
  {
    assert names == [names[0]] + names[1..];
    assert forall k :: k in names <==> k == names[0] || k in names[1..];
  }

  lemma {:induction false} RemovedUpToStuck(files: Files, names: seq<string>, stuck: Files)
    ensures
      var n := FirstStuck(names, stuck);
      Removed(files, names, stuck)
        == if n == |names| then Without(files, names) else Without(files, names[..n])[names[n] := stuck[names[n]]]
  {
    var n := FirstStuck(names, stuck);
    if n > 0 {
      RemovedUpToStuck(files - {names[0]}, names[1..], stuck);
      WithoutFirst(files, names);
      WithoutFirst(files, names[..n]);
      assert names[..n][1..] == names[1..][..n - 1];
    } else {
      assert Without(files, []) == files;
      assert names[..0] == [];
    }
  }

  /** A directory ends up empty exactly if it could be listed and every name in it removed;
      otherwise all is left from the first name on that could not be. */
  lemma ClearedIsEmptyIff(files: Files, c: Clearing)
    requires Lists(c.names, files) && files != map[]
    ensures Cleared(files, c) == map[] <==> Clears(c)
    ensures c.listing.Listed? && !Clears(c) ==>
      var n := FirstStuck(c.names, c.stuck);
      && n < |c.names|
      && Cleared(files, c) == Without(files, c.names[..n])[c.names[n] := c.stuck[c.names[n]]]
  {
    if c.listing.Listed? {
      var n := FirstStuck(c.names, c.stuck);
      RemovedUpToStuck(files, c.names, c.stuck);
      if n < |c.names| {
        assert c.names[n] in Cleared(files, c) && c.names[n] in c.names;
      }
    }
  }

  /* ---------- what is reported ---------- */

  /** The output that is there to be uploaded after the process. */
  predicate OutputSeen(uploads: bool, files: Files, x: Execution) {
    uploads && x.listing.Listed? && Made(files, x) != map[]
  }

  predicate UploadMade(uploads: bool, files: Files, x: Execution) {
    && Exited(x) && OutputSeen(uploads, files, x) && x.upload.dataset.Some?
    && x.upload.final.main.MainReturned? && !x.upload.final.main.failed
  }

  /** The one report that goes with an execution: a success exactly if the process succeeded
      and its output, where there is any to be seen, was uploaded. */
  function ReportOf(uploads: bool, files: Files, run: Q.Run, x: Execution): Report {
    if x.startFails.Some? then Failure(run.task, UNEXPECTED, x.startFails.value)
    else
      match x.exit
      case ExitError(status, stderr) => Failure(run.task, status, stderr)
      case WaitFails(message) => Failure(run.task, UNEXPECTED, message)
      case Succeeded(state) =>
        if UploadMade(uploads, files, x) then Success(run.task, state, x.upload.dataset.value)
        else if OutputSeen(uploads, files, x) then Failure(run.task, UPLOAD_CODE, UPLOAD_MESSAGE)
        else Success(run.task, state, "")
  }

  function OutputAfter(uploads: bool, files: Files, x: Execution): Files {
    if UploadMade(uploads, files, x) then Cleared(Made(files, x), x.clearing) else Made(files, x)
  }

  /** A dataset that is named was committed with exactly the files of the output directory. */
  ghost predicate Honest(pack: Packer, files: Files, x: Execution, r: Report) {
    r.Success? && r.dataset != "" ==>
      x.upload.dataset == Some(r.dataset) && Holds(pack, Made(files, x), x.upload)
  }

  /** A dataset that a report names is committed, by the safety of the upload. */
  lemma ReportNamesCommitted(pack: Packer, uploads: bool, files: Files, run: Q.Run, x: Execution)
    requires Faithful(pack, files, x)
    ensures Honest(pack, files, x, ReportOf(uploads, files, run, x))
  {
    if UploadMade(uploads, files, x) {
      US.NilMeansAcknowledged(x.upload.config, x.upload.final);
    }
    hide US.Reachable, US.Committed, Lists;
  }

  /** The report says what happened: it is a success exactly if the process was started, ended
      well, and what it left in the output directory, if anything is seen there, was uploaded; it
      names a dataset exactly if one was uploaded, and that one is committed, by the safety of
      the upload. A failure carries what the process gave for it. */
  lemma ReportIsHonest(pack: Packer, uploads: bool, files: Files, run: Q.Run, x: Execution)
    requires Faithful(pack, files, x)
    ensures
      var r := ReportOf(uploads, files, run, x);
      var ended := x.startFails.None? && x.exit.Succeeded?;
      var seen := ended && uploads && x.listing == Listed && x.process(files) != map[];
      var uploaded := seen && x.upload.dataset.Some? && x.upload.final.main == U.MainReturned(false);
      && Honest(pack, files, x, r) && r.task == run.task
      && (r.Success? <==> ended && (seen ==> uploaded))
      && (r.Success? ==> r.result == x.exit.state && (r.dataset != "" <==> uploaded))
      && (r.Success? && uploaded ==> r.dataset == x.upload.dataset.value)
      && (x.startFails.Some? ==> r == Failure(run.task, "ERR_UNEXPECTED", x.startFails.value))
      && (x.startFails.None? && x.exit.ExitError? ==> r == Failure(run.task, x.exit.status, x.exit.stderr))
      && (x.startFails.None? && x.exit.WaitFails? ==> r == Failure(run.task, "ERR_UNEXPECTED", x.exit.message))
      && (seen && !uploaded ==> r == Failure(run.task, "0", "failed to output upload dataset"))
  {
    ReportNamesCommitted(pack, uploads, files, run, x);
    assert Made(files, x) == if x.startFails.Some? then files else x.process(files);
    assert x.upload.dataset.Some? ==> x.upload.final.main.MainReturned?;
    hide RanOn, Holds, Honest, Lists;
  }

  class Worker {
    const entrypoint: seq<string>
    const cmd: seq<string>
    const uploads: bool           // there is an uploadConf
    var output: Files             // its LocalDir
    var commands: seq<seq<string>> // every command handed to exec
    var reports: seq<Report>      // every report attempted

    constructor (entrypoint: seq<string>, cmd: seq<string>, uploads: bool)
      ensures this.entrypoint == entrypoint && this.cmd == cmd && this.uploads == uploads
      ensures output == map[] && commands == [] && reports == []
    {
      this.entrypoint, this.cmd, this.uploads := entrypoint, cmd, uploads;
      output, commands, reports := map[], [], [];
    }

    method SendRunFailure(task: int, code: string, message: string)
      modifies this`reports
      ensures reports == old(reports) + [Failure(task, code, message)]
    {
      reports := reports + [Failure(task, code, message)];
    }

    method SendRunSuccess(task: int, result: string, dataset: string)
      modifies this`reports
      ensures reports == old(reports) + [Success(task, result, dataset)]
    {
      reports := reports + [Success(task, result, dataset)];
    }

    /** Not empty and no error means that there is something to upload. */
    method IsEmptyDir(listing: Listing) returns (empty: bool, failed: bool)
      ensures !empty && !failed <==> listing.Listed? && output != map[]
      ensures empty ==> output == map[]
    {
      if listing.OpenFails? || listing.NamesFail? {
        return false, true;
      }
      var names := output.Keys;
      if names == {} {
        return true, false;
      }
      empty, failed := false, false;
    }

    /** No error means an empty directory. */
    method RemoveContents(c: Clearing) returns (ok: bool)
      requires Lists(c.names, output)
      modifies this`output
      ensures output == Cleared(old(output), c)
      ensures ok <==> Clears(c)
      ensures ok ==> output == map[]
    {
      ghost var files := output;
      if !c.listing.Listed? {
        return false;
      }
      for i := 0 to |c.names|
        invariant Removed(output, c.names[i..], c.stuck) == Removed(files, c.names, c.stuck)
        invariant forall j :: 0 <= j < i ==> c.names[j] !in c.stuck && c.names[j] !in output
        invariant output.Keys <= files.Keys
      {
        assert c.names[i..][0] == c.names[i] && c.names[i..][1..] == c.names[i + 1..];
        if c.names[i] in c.stuck {
          output := output[c.names[i] := c.stuck[c.names[i]]];
          return false;
        }
        output := output - {c.names[i]};
      }
      assert forall k :: k !in output;
      ok := true;
    }

    /** The dataset's name comes back even when uploading it fails. If it does not fail the
        dataset is committed, all progress was sent, and no worker is left that could still
        send on progressCh, which is closed on return. */
    method Upload(up: UploadRun, ghost pack: Packer) returns (dataset: Option<string>, failed: bool)
      requires up.dataset.Some? ==> RanOn(pack, output, up)
      ensures dataset == up.dataset
      ensures failed <==> dataset.None? || up.final.main.failed
      ensures !failed ==> Holds(pack, output, up) && FS.Live(up.final.fan) == {}
      ensures !failed && up.config.fan.reporting ==> Sum(up.final.fan.progress) == |pack(output)|
    {
      dataset := up.dataset;
      if dataset.None? {
        return dataset, true;
      }
      failed := up.final.main.failed;
      if !failed {
        US.NilMeansAcknowledged(up.config, up.final);
        US.AcknowledgedMeansDone(up.config, up.final);
      }
    }

    /** A run is executed exactly if it or the worker has a command, or there is an entrypoint:
        then the entrypoint followed by the run's own command, or by the worker's if it has none,
        is handed to exec once, and one report is attempted, the one that says what happened
        (ReportIsHonest); the output directory is cleared only after an upload. */
    method StartRunExec(run: Q.Run, x: Execution, ghost pack: Packer)
      requires Faithful(pack, output, x)
      modifies this
      ensures run.command == [] && entrypoint == [] && cmd == [] ==>
        commands == old(commands) && reports == old(reports) && output == old(output)
      ensures run.command != [] || entrypoint != [] || cmd != [] ==>
        && commands == old(commands) + [entrypoint + (if run.command == [] then cmd else run.command)]
        && reports == old(reports) + [ReportOf(uploads, old(output), run, x)]
        && output == OutputAfter(uploads, old(output), x)
    {
      assert x.upload.dataset.Some? ==> x.upload.final.main.MainReturned?;
      hide RanOn, Holds, Lists, Cleared, Clears, US.Committed, FS.Live, Sum;
      var command := cmd;
      if |run.command| > 0 {
        command := run.command;
      }
      command := entrypoint + command;
      if |command| == 0 {
        return;
      }
      commands := commands + [command];
      var err: Option<Exit> := None;
      if x.startFails.Some? {
        err := Some(WaitFails(x.startFails.value));
      } else {
        output := x.process(output);
        if !x.exit.Succeeded? {
          err := Some(x.exit);
        }
      }
      if err.Some? {
        var code, message := UNEXPECTED, "";
        match err.value {
          case ExitError(status, stderr) => code, message := status, stderr;
          case WaitFails(m) => message := m;
          case Succeeded(_) => assert false;
        }
        SendRunFailure(run.task, code, message);
      } else {
        var dataset := "";
        if uploads {
          var empty, listingFailed := IsEmptyDir(x.listing);
          if !empty && !listingFailed {
            var named, failed := Upload(x.upload, pack);
            if failed {
              SendRunFailure(run.task, UPLOAD_CODE, UPLOAD_MESSAGE);
              return;
            }
            dataset := named.value;
            // a failure is logged, and cancels a context that ends with this run anyway
            var cleared := RemoveContents(x.clearing);
          }
        }
        SendRunSuccess(run.task, x.exit.state, dataset);
      }
    }
  }

  /* ---------- whose output is left behind ---------- */

  /** The execution leaves nothing behind in a directory it found empty. */
  predicate Tidy(uploads: bool, x: Execution) {
    || Made(map[], x) == map[]
    || (UploadMade(uploads, map[], x) && Clears(x.clearing))
  }

  /** Output stays behind when the process fails after writing, when the upload fails or is
      skipped, and when the directory cannot be cleared; and only then. */
  lemma LeavesNothingIfTidy(uploads: bool, x: Execution)
    requires Lists(x.clearing.names, Made(map[], x))
    ensures OutputAfter(uploads, map[], x) == map[] <==> Tidy(uploads, x)
  {
    if Made(map[], x) != map[] {
      ClearedIsEmptyIff(Made(map[], x), x.clearing);
    }
  }
}
