/** The worker's two goroutines (nerd/service/working/v1/working.go:221-270): one receives task
    runs, the other executes them; they meet on an unbuffered channel. Each action is one
    atomic step of either. */
module WorkerLoop {
  import opened Prelude
  import Pipes
  import Q = Queue
  import W = Worker
  import F = FanOut
  import U = UploadProcess
  import UL = UploadLiveness

  datatype Receiver =
    | Checking                        // the select with the default branch
    | Receiving                       // inside ReceiveTaskRuns
    | Sending(rest: seq<Q.Run>)       // at runCh <- run
    | SendingError
    | Exited

  datatype Executor = Selecting | Executing(run: Q.Run) | Finished

  /** One finished execution: the run, what it met, and the output directory it found. */
  datatype Entry = Entry(run: Q.Run, x: W.Execution, before: W.Files)

  datatype Config = Config(entrypoint: seq<string>, cmd: seq<string>, uploads: bool, pack: W.Packer)

  datatype State = State(
    ctxDone: bool,
    receiver: Receiver,
    executor: Executor,
    handled: seq<Q.Delivery>,         // every delivery looked at so far
    received: seq<Q.Run>,             // every run ReceiveTaskRuns returned so far
    failed: bool,                     // a call of ReceiveTaskRuns has failed
    finished: seq<Entry>,
    output: W.Files,
    reports: seq<W.Report>)

  function Init(output: W.Files): State {
    State(false, Checking, Selecting, [], [], false, [], output, [])
  }

  datatype Action =
    | Check
    | ReceiveReturns(describeFails: bool, polls: seq<Q.Poll>)
    | NextReceive
    | Hand                            // a run goes through the channel
    | HandError
    | Execute(x: W.Execution)
    | Stop
    | Cancel

  /** There is something to execute: the run's own command, the worker's, or an entrypoint. */
  predicate Runnable(c: Config, run: Q.Run) {
    W.Runnable(c.entrypoint, c.cmd, run)
  }

  ghost predicate Enabled(c: Config, s: State, a: Action) {
    match a
    case Check => s.receiver.Checking?
    case ReceiveReturns(_, _) => s.receiver.Receiving?
    case NextReceive => s.receiver == Sending([])
    case Hand => s.receiver.Sending? && s.receiver.rest != [] && s.executor.Selecting?
    case HandError => s.receiver.SendingError? && s.executor.Selecting?
    case Execute(x) => s.executor.Executing? && W.Faithful(c.pack, s.output, x)
    case Stop => s.executor.Selecting? && s.ctxDone
    case Cancel => true
  }

  function Received(s: State, describeFails: bool, polls: seq<Q.Poll>): State {
    var (r, ds) := Q.Received(describeFails, polls);
    var t := s.(handled := s.handled + ds);
    match r
    case Failed => t.(receiver := SendingError, failed := true)
    case Runs(runs) => t.(receiver := Sending(runs), received := s.received + runs)
  }

  /** startRunExec, as its contract says (Worker.StartRunExec). */
  function Executed(c: Config, s: State, x: W.Execution): State
    requires s.executor.Executing?
  {
    var run := s.executor.run;
    var t := s.(executor := Selecting, finished := s.finished + [Entry(run, x, s.output)]);
    if W.Command(c.entrypoint, c.cmd, run) != [] then
      t.(reports := s.reports + [W.ReportOf(c.uploads, s.output, run, x)],
         output := W.OutputAfter(c.uploads, s.output, x))
    else t
  }

  ghost function Apply(c: Config, s: State, a: Action): State
    requires Enabled(c, s, a)
  {
    match a
    // with the context done the default branch is not taken
    case Check => s.(receiver := if s.ctxDone then Exited else Receiving)
    case ReceiveReturns(describeFails, polls) => Received(s, describeFails, polls)
    case NextReceive => s.(receiver := Checking)
    case Hand => s.(receiver := Sending(s.receiver.rest[1..]), executor := Executing(s.receiver.rest[0]))
    // the break leaves the select, not the loop
    case HandError => s.(receiver := Exited)
    case Execute(x) => Executed(c, s, x)
    case Stop => s.(executor := Finished)
    case Cancel => s.(ctxDone := true)
  }

  ghost predicate Valid(c: Config, s: State, acts: seq<Action>)
    decreases |acts|
  {
    acts == [] || (Enabled(c, s, acts[0]) && Valid(c, Apply(c, s, acts[0]), acts[1..]))
  }

  ghost function Run(c: Config, s: State, acts: seq<Action>): State
    requires Valid(c, s, acts)
    decreases |acts|
  {
    if acts == [] then s else Run(c, Apply(c, s, acts[0]), acts[1..])
  }

  /* ---------- the invariant ---------- */

  /** Received but not handed over yet. */
  function Waiting(s: State): seq<Q.Run> {
    if s.receiver.Sending? then s.receiver.rest else []
  }

  function RunsOf(entries: seq<Entry>): seq<Q.Run> {
    seq(|entries|, i requires 0 <= i < |entries| => entries[i].run)
  }

  /** Runs the executor has taken, in the order it took them. */
  function Taken(s: State): seq<Q.Run> {
    RunsOf(s.finished) + (if s.executor.Executing? then [s.executor.run] else [])
  }

  predicate InReceiptOrder(s: State) {
    s.received == Taken(s) + Waiting(s) && |Waiting(s)| <= 1
  }

  /** The runs among deliveries that are given to the caller. */
  function ReturnedRuns(ds: seq<Q.Delivery>): seq<Q.Run> {
    if ds == [] then []
    else
      ReturnedRuns(ds[..|ds| - 1])
      + (if Q.FateOf(ds[|ds| - 1]).Returned? then [ds[|ds| - 1].body.value] else [])
  }

  predicate Accounted(s: State) {
    ReturnedRuns(s.handled) == s.received
  }

  /** A failed receive is the receiver's last. */
  predicate BrokenOnlyAtEnd(s: State) {
    && (forall i :: 0 <= i < |s.handled| && Q.FateOf(s.handled[i]).Broken? ==> i == |s.handled| - 1)
    && (s.handled != [] && Q.FateOf(s.handled[|s.handled| - 1]).Broken? ==>
          s.receiver.SendingError? || s.receiver.Exited?)
  }

  /** The entries of the runs there was something to execute for. */
  function RunnableOnes(c: Config, entries: seq<Entry>): seq<Entry> {
    if entries == [] then []
    else
      RunnableOnes(c, entries[..|entries| - 1])
      + (if Runnable(c, entries[|entries| - 1].run) then [entries[|entries| - 1]] else [])
  }

  /** The report is the one for this execution, and true. */
  ghost predicate ReportFits(c: Config, e: Entry, r: W.Report) {
    r == W.ReportOf(c.uploads, e.before, e.run, e.x) && W.Honest(c.pack, e.before, e.x, r)
  }

  /** One report for each finished run that had something to execute, in order. */
  ghost predicate ReportsMatch(c: Config, s: State) {
    var es := RunnableOnes(c, s.finished);
    |s.reports| == |es| && forall i :: 0 <= i < |es| ==> ReportFits(c, es[i], s.reports[i])
  }

  ghost predicate Inv(c: Config, s: State) {
    && InReceiptOrder(s) && Accounted(s) && BrokenOnlyAtEnd(s) && ReportsMatch(c, s)
  }

  lemma RunsOfSnoc(entries: seq<Entry>, e: Entry)
    ensures RunsOf(entries + [e]) == RunsOf(entries) + [e.run]
  {
  }

  lemma {:induction false} ReturnedRunsAppend(ds: seq<Q.Delivery>, es: seq<Q.Delivery>)
    ensures ReturnedRuns(ds + es) == ReturnedRuns(ds) + ReturnedRuns(es)
    decreases |es|
  {
    if es == [] {
      assert ds + es == ds;
    } else {
      var init, last := es[..|es| - 1], es[|es| - 1];
      assert (ds + es)[..|ds + es| - 1] == ds + init;
      ReturnedRunsAppend(ds, init);
      Assoc(ReturnedRuns(ds), ReturnedRuns(init), if Q.FateOf(last).Returned? then [last.body.value] else []);
    }
  }

  lemma {:induction false} NothingReturned(ds: seq<Q.Delivery>)
    requires forall i :: 0 <= i < |ds| ==> !Q.FateOf(ds[i]).Returned?
    ensures ReturnedRuns(ds) == []
    decreases |ds|
  {
    if ds != [] {
      NothingReturned(ds[..|ds| - 1]);
    }
  }

  /** What one call of ReceiveTaskRuns returns is what it did not discard. */
  lemma ReceivedIsReturned(describeFails: bool, polls: seq<Q.Poll>)
    ensures
      var (r, ds) := Q.Received(describeFails, polls);
      && ReturnedRuns(ds) == (if r.Runs? then r.runs else [])
      && (r.Runs? ==> |r.runs| <= 1)
      && (forall i :: 0 <= i < |ds| && Q.FateOf(ds[i]).Broken? ==> r.Failed? && i == |ds| - 1)
  {
    Q.DeletedMessagesAreAccountedFor(describeFails, polls);
    var (r, ds) := Q.Received(describeFails, polls);
    hide Q.Received;
    if ds != [] {
      NothingReturned(ds[..|ds| - 1]);
    }
  }

  lemma ReceiveKeepsInv(c: Config, s: State, describeFails: bool, polls: seq<Q.Poll>)
    requires Inv(c, s) && s.receiver.Receiving?
    ensures Inv(c, Received(s, describeFails, polls))
  {
    var (r, ds) := Q.Received(describeFails, polls);
    ReceivedIsReturned(describeFails, polls);
    ReturnedRunsAppend(s.handled, ds);
    hide Q.Received, Q.FateOf;
    var t := Received(s, describeFails, polls);
    assert InReceiptOrder(t) && Accounted(t) && ReportsMatch(c, t) by {
      hide BrokenOnlyAtEnd, RunsOf, ReturnedRuns, RunnableOnes, ReportFits;
      assert Taken(t) == Taken(s);
      assert Taken(s) + [] == Taken(s) && s.received + [] == s.received;
    }
    hide InReceiptOrder, Accounted, ReportsMatch, ReturnedRuns;
    ReceiveKeepsBroken(s, describeFails, polls);
  }

  lemma ReceiveKeepsBroken(s: State, describeFails: bool, polls: seq<Q.Poll>)
    requires BrokenOnlyAtEnd(s) && s.receiver.Receiving?
    ensures BrokenOnlyAtEnd(Received(s, describeFails, polls))
  {
    var (r, ds) := Q.Received(describeFails, polls);
    ReceivedIsReturned(describeFails, polls);
    hide Q.Received, Q.FateOf, ReturnedRuns;
    var all := s.handled + ds;
    forall i | 0 <= i < |all| && Q.FateOf(all[i]).Broken? ensures i == |all| - 1 && r.Failed? {
      if i >= |s.handled| {
        assert all[i] == ds[i - |s.handled|];
      }
    }
  }

  /** All that an execution touches. */
  lemma ExecutedTouches(c: Config, s: State, x: W.Execution)
    requires s.executor.Executing?
    ensures
      var e := Entry(s.executor.run, x, s.output);
      var t := Executed(c, s, x);
      && t == s.(executor := Selecting, finished := s.finished + [e], output := t.output, reports := t.reports)
      && t.reports
         == if Runnable(c, e.run) then s.reports + [W.ReportOf(c.uploads, e.before, e.run, x)] else s.reports
  {
    W.CommandIsWhole(c.entrypoint, c.cmd, s.executor.run);
    hide W.ReportOf, W.OutputAfter, W.Command;
  }

  lemma ReportsGrow(c: Config, s: State, t: State, e: Entry)
    requires ReportsMatch(c, s) && t.finished == s.finished + [e]
    requires t.reports == if Runnable(c, e.run) then s.reports + [W.ReportOf(c.uploads, e.before, e.run, e.x)]
                          else s.reports
    requires W.Honest(c.pack, e.before, e.x, W.ReportOf(c.uploads, e.before, e.run, e.x))
    ensures ReportsMatch(c, t)
  {
    hide W.ReportOf, W.Honest, Runnable;
    assert t.finished[..|s.finished|] == s.finished;
  }

  lemma ExecuteKeepsOrder(s: State, t: State, e: Entry)
    requires InReceiptOrder(s) && Accounted(s) && BrokenOnlyAtEnd(s) && s.executor == Executing(e.run)
    requires t == s.(executor := Selecting, finished := s.finished + [e], output := t.output, reports := t.reports)
    ensures InReceiptOrder(t) && Accounted(t) && BrokenOnlyAtEnd(t)
  {
    RunsOfSnoc(s.finished, e);
    hide RunsOf, Q.FateOf, ReturnedRuns;
    assert Taken(t) + [] == Taken(t);
  }

  lemma ExecuteKeepsInv(c: Config, s: State, x: W.Execution)
    requires Inv(c, s) && s.executor.Executing? && W.Faithful(c.pack, s.output, x)
    ensures Inv(c, Executed(c, s, x))
  {
    var e := Entry(s.executor.run, x, s.output);
    var t := Executed(c, s, x);
    W.ReportNamesCommitted(c.pack, c.uploads, s.output, e.run, x);
    ExecutedTouches(c, s, x);
    hide InReceiptOrder, Accounted, BrokenOnlyAtEnd, ReportsMatch;
    hide W.ReportOf, W.Honest, W.Faithful, Executed, Runnable;
    ExecuteKeepsOrder(s, t, e);
    ReportsGrow(c, s, t, e);
  }

  lemma HandKeepsInv(c: Config, s: State)
    requires Inv(c, s) && Enabled(c, s, Hand)
    ensures Inv(c, Apply(c, s, Hand))
  {
    hide Q.FateOf, ReportFits;
    var t := Apply(c, s, Hand);
    assert Waiting(s) == [s.receiver.rest[0]] && Waiting(t) == [];
    assert Taken(t) == Taken(s) + [s.receiver.rest[0]];
  }

  lemma StepKeepsInv(c: Config, s: State, a: Action)
    requires Inv(c, s) && Enabled(c, s, a)
    ensures Inv(c, Apply(c, s, a))
  {
    match a
    case ReceiveReturns(describeFails, polls) => ReceiveKeepsInv(c, s, describeFails, polls);
    case Execute(x) => ExecuteKeepsInv(c, s, x);
    case Hand => HandKeepsInv(c, s);
    case _ =>
      hide Q.FateOf, ReportFits, Received, Executed, RunsOf, RunnableOnes;
      assert Taken(Apply(c, s, a)) == Taken(s) && Waiting(Apply(c, s, a)) == Waiting(s);
  }

  lemma {:induction false} RunKeepsInv(c: Config, s: State, acts: seq<Action>)
    requires Inv(c, s) && Valid(c, s, acts)
    ensures Inv(c, Run(c, s, acts))
    decreases |acts|
  {
    hide Inv, Enabled, Apply;
    if acts != [] {
      StepKeepsInv(c, s, acts[0]);
      RunKeepsInv(c, Apply(c, s, acts[0]), acts[1..]);
    }
  }

  ghost predicate Reachable(c: Config, s: State) {
    exists output, acts :: Valid(c, Init(output), acts) && s == Run(c, Init(output), acts)
  }

  lemma InitInv(c: Config, output: W.Files)
    ensures Inv(c, Init(output))
  {
  }

  lemma ReachableInv(c: Config, s: State)
    requires Reachable(c, s)
    ensures Inv(c, s)
  {
    hide Inv;
    var output, acts :| Valid(c, Init(output), acts) && s == Run(c, Init(output), acts);
    InitInv(c, output);
    RunKeepsInv(c, Init(output), acts);
  }

  /* ---------- what holds at every moment of every run of the worker ---------- */

  /** Runs are executed one at a time in the order of receipt, and at most one received run
      waits behind the one being executed. */
  lemma ExecutedInReceiptOrder(c: Config, s: State)
    requires Reachable(c, s)
    ensures RunsOf(s.finished) <= Taken(s) <= s.received
    ensures |s.received| - |Taken(s)| == |Waiting(s)| <= 1
    ensures |Taken(s)| <= |s.finished| + 1
  {
    ReachableInv(c, s);
  }

  /** Nothing that has been handled is lost track of: each delivery is a discard, or the next
      of the runs finished, being executed or waiting, or the one that ended a failed receive. */
  lemma QueueIsConserved(c: Config, s: State)
    requires Reachable(c, s)
    ensures ReturnedRuns(s.handled) == Taken(s) + Waiting(s)
    ensures forall i :: 0 <= i < |s.handled| && Q.FateOf(s.handled[i]).Broken? ==>
      i == |s.handled| - 1 && (s.receiver.SendingError? || s.receiver.Exited?)
  {
    ReachableInv(c, s);
  }

  /** End to end: every finished run that had a command of its own or found one of the worker's,
      or an entrypoint, and no other, had exactly one report attempted, in order, the one for
      what happened to it; and a success naming a dataset names one that was committed and
      holds exactly what the output directory held. */
  lemma ReportsAreHonest(c: Config, s: State)
    requires Reachable(c, s)
    ensures |s.reports| == |RunnableOnes(c, s.finished)|
    ensures forall i :: 0 <= i < |s.reports| ==>
      var e, r := RunnableOnes(c, s.finished)[i], s.reports[i];
      && r == W.ReportOf(c.uploads, e.before, e.run, e.x)
      && (r.Success? && r.dataset != "" ==>
            && e.x.upload.dataset == Some(r.dataset)
            && W.Holds(c.pack, W.Made(e.before, e.x), e.x.upload))
  {
    ReachableInv(c, s);
    forall i | 0 <= i < |s.reports|
      ensures ReportFits(c, RunnableOnes(c, s.finished)[i], s.reports[i])
    {
    }
    hide RunnableOnes, W.Holds, W.ReportOf, W.Made;
  }

  /* ---------- whose output is in a dataset ---------- */

  /** What an execution leaves in the output directory. */
  function LeftBy(c: Config, e: Entry): W.Files {
    if Runnable(c, e.run) then W.OutputAfter(c.uploads, e.before, e.x) else e.before
  }

  predicate LeavesNothing(c: Config, e: Entry) {
    Runnable(c, e.run) ==> W.Tidy(c.uploads, e.x)
  }

  ghost predicate ListedWhenEmpty(e: Entry) {
    e.before == map[] ==> W.Lists(e.x.clearing.names, W.Made(map[], e.x))
  }

  /** Each execution finds what the one before it left. */
  ghost predicate Chained(c: Config, s: State) {
    && (forall i :: 0 <= i < |s.finished| - 1 ==> s.finished[i + 1].before == LeftBy(c, s.finished[i]))
    && (s.finished != [] ==> s.output == LeftBy(c, s.finished[|s.finished| - 1]))
    && (forall i :: 0 <= i < |s.finished| ==> ListedWhenEmpty(s.finished[i]))
  }

  ghost predicate StartsEmpty(s: State) {
    if s.finished == [] then s.output == map[] else s.finished[0].before == map[]
  }

  lemma ExecutedEntry(c: Config, s: State, x: W.Execution)
    requires s.executor.Executing? && W.Faithful(c.pack, s.output, x)
    ensures
      var e := Entry(s.executor.run, x, s.output);
      var t := Executed(c, s, x);
      t.finished == s.finished + [e] && t.output == LeftBy(c, e) && ListedWhenEmpty(e)
  {
    W.CommandIsWhole(c.entrypoint, c.cmd, s.executor.run);
    hide W.ReportOf, W.OutputAfter, W.RanOn, W.Command;
  }

  lemma ChainGrows(c: Config, s: State, t: State, e: Entry)
    requires Chained(c, s) && StartsEmpty(s) && e.before == s.output
    requires t.finished == s.finished + [e] && t.output == LeftBy(c, e) && ListedWhenEmpty(e)
    ensures Chained(c, t) && StartsEmpty(t)
  {
    hide LeftBy, ListedWhenEmpty;
    var n := |s.finished|;
    forall i | 0 <= i < n ensures t.finished[i + 1].before == LeftBy(c, t.finished[i]) {
      assert i < n - 1 ==> s.finished[i + 1].before == LeftBy(c, s.finished[i]);
    }
  }

  lemma ExecuteKeepsChained(c: Config, s: State, x: W.Execution)
    requires Chained(c, s) && StartsEmpty(s) && s.executor.Executing? && W.Faithful(c.pack, s.output, x)
    ensures Chained(c, Executed(c, s, x)) && StartsEmpty(Executed(c, s, x))
  {
    hide Chained, StartsEmpty, W.Faithful, Executed, LeftBy, ListedWhenEmpty;
    ExecutedEntry(c, s, x);
    ChainGrows(c, s, Executed(c, s, x), Entry(s.executor.run, x, s.output));
  }

  lemma OtherStepsLeaveOutput(c: Config, s: State, a: Action)
    requires Enabled(c, s, a) && !a.Execute?
    ensures Apply(c, s, a).finished == s.finished && Apply(c, s, a).output == s.output
  {
    hide Q.Received;
  }

  lemma StepKeepsChained(c: Config, s: State, a: Action)
    requires Chained(c, s) && StartsEmpty(s) && Enabled(c, s, a)
    ensures Chained(c, Apply(c, s, a)) && StartsEmpty(Apply(c, s, a))
  {
    if a.Execute? {
      ExecuteKeepsChained(c, s, a.x);
      hide Chained, StartsEmpty, Executed;
    } else {
      OtherStepsLeaveOutput(c, s, a);
      hide Apply, Enabled, LeftBy, ListedWhenEmpty;
    }
  }

  lemma {:induction false} RunKeepsChained(c: Config, s: State, acts: seq<Action>)
    requires Chained(c, s) && StartsEmpty(s) && Valid(c, s, acts)
    ensures Chained(c, Run(c, s, acts)) && StartsEmpty(Run(c, s, acts))
    decreases |acts|
  {
    hide Chained, StartsEmpty, Enabled, Apply;
    if acts != [] {
      StepKeepsChained(c, s, acts[0]);
      RunKeepsChained(c, Apply(c, s, acts[0]), acts[1..]);
    }
  }

  lemma {:induction false} FoundEmptyIff(c: Config, s: State, i: nat)
    requires Chained(c, s) && StartsEmpty(s) && i < |s.finished|
    ensures (forall k :: 0 <= k <= i ==> s.finished[k].before == map[])
      <==> (forall j :: 0 <= j < i ==> LeavesNothing(c, s.finished[j]))
    decreases i
  {
    if i > 0 {
      FoundEmptyIff(c, s, i - 1);
      var e := s.finished[i - 1];
      assert s.finished[i - 1 + 1].before == LeftBy(c, e);
      assert ListedWhenEmpty(e);
      if e.before == map[] {
        W.LeavesNothingIfTidy(c.uploads, e.x);
      }
      hide W.Tidy, W.OutputAfter, W.Made, W.Lists;
    }
  }

  /** From an empty directory, what is there to upload is each run's own exactly as long as
      no earlier run left anything behind (Worker.LeavesNothingIfTidy says when one does). */
  lemma OutputsDoNotMix(c: Config, acts: seq<Action>, i: nat)
    requires Valid(c, Init(map[]), acts) && i < |Run(c, Init(map[]), acts).finished|
    ensures
      var done := Run(c, Init(map[]), acts).finished;
      && ((forall k :: 0 <= k <= i ==> done[k].before == map[])
          <==> (forall j :: 0 <= j < i ==> LeavesNothing(c, done[j])))
      && ((forall j :: 0 <= j < i ==> LeavesNothing(c, done[j])) ==>
            W.Made(done[i].before, done[i].x) == W.Made(map[], done[i].x))
  {
    assert Chained(c, Init(map[])) && StartsEmpty(Init(map[]));
    RunKeepsChained(c, Init(map[]), acts);
    FoundEmptyIff(c, Run(c, Init(map[]), acts), i);
    hide LeavesNothing;
  }

  lemma {:induction false} RunExtends(c: Config, s: State, acts: seq<Action>, a: Action)
    requires Valid(c, s, acts) && Enabled(c, Run(c, s, acts), a)
    ensures Valid(c, s, acts + [a])
    ensures Run(c, s, acts + [a]) == Apply(c, Run(c, s, acts), a)
    decreases |acts|
  {
    hide Apply, Enabled;
    var more := acts + [a];
    if acts == [] {
      assert more[1..] == [];
    } else {
      assert more[1..] == acts[1..] + [a];
      RunExtends(c, Apply(c, s, acts[0]), acts[1..], a);
    }
  }

  lemma TakeStep(c: Config, s: State, a: Action) returns (t: State)
    requires Reachable(c, s) && Enabled(c, s, a)
    ensures t == Apply(c, s, a) && Reachable(c, t)
  {
    hide Apply, Enabled;
    var output, acts :| Valid(c, Init(output), acts) && s == Run(c, Init(output), acts);
    RunExtends(c, Init(output), acts, a);
    t := Apply(c, s, a);
  }

  function OneMessage(run: Q.Run): Q.Delivery {
    Q.Delivery(0, Some(run), Q.Deleted, Q.Alive)
  }

  lemma OneReceived(run: Q.Run)
    ensures Q.Received(false, [Q.Messages([OneMessage(run)])]) == (Q.Runs([run]), [OneMessage(run)])
  {
    var polls := [Q.Messages([OneMessage(run)])];
    assert polls[1..] == [];
    assert Q.Deliveries(polls) == [OneMessage(run)];
  }

  lemma TakeRun(c: Config, s0: State, run: Q.Run) returns (s: State)
    requires Reachable(c, s0) && s0.receiver.Checking? && s0.executor.Selecting? && !s0.ctxDone
    ensures Reachable(c, s)
    ensures s == s0.(receiver := Sending([]), executor := Executing(run),
                     handled := s0.handled + [OneMessage(run)], received := s0.received + [run])
  {
    OneReceived(run);
    hide Reachable, Q.Received;
    s := TakeStep(c, s0, Check);
    s := TakeStep(c, s, ReceiveReturns(false, [Q.Messages([OneMessage(run)])]));
    assert [run][1..] == [];
    s := TakeStep(c, s, Hand);
  }

  /** A finished upload of a directory. */
  lemma UploadOf(c: Config, fan: F.Config, files: W.Files) returns (up: W.UploadRun)
    requires fan.mode.Upload?
    ensures up.dataset == Some("output") && W.RanOn(c.pack, files, up)
    ensures !up.final.main.failed && W.Holds(c.pack, files, up)
  {
    var archive := c.pack(files);
    var parts: seq<Bytes> := if archive == [] then [] else [archive];
    ConcatSnoc([], archive);
    assert [] + [archive] == [archive] && [] + archive == archive;
    var config := U.Config(fan, archive);
    var final := UL.AnyArchiveCanBeCommitted(config, map[], parts, Pipes.NoHiccups(|parts|));
    up := W.UploadRun(Some("output"), config, final);
  }

  const A: W.Files := map["a" := [1]]
  const B: W.Files := map["b" := [2]]
  const BOTH: W.Files := map["a" := [1], "b" := [2]]

  /** A process that writes "a" and fails. */
  lemma WritesAndFails(c: Config, run: Q.Run, up: W.UploadRun) returns (x: W.Execution)
    ensures W.Faithful(c.pack, map[], x) && W.OutputAfter(c.uploads, map[], x) == A
    ensures W.ReportOf(c.uploads, map[], run, x) == W.Failure(run.task, "exit status 1", "")
  {
    x := W.Execution(None, W.ExitError("exit status 1", ""), (f: W.Files) => f["a" := [1]], W.Listed,
                     up.(dataset := None), W.Clearing(W.Listed, ["a"], map[]));
  }

  /** A process that writes "b" into what it finds, and has it uploaded. */
  lemma WritesAndSucceeds(c: Config, run: Q.Run, up: W.UploadRun) returns (x: W.Execution)
    requires c.uploads && up.dataset == Some("output") && W.RanOn(c.pack, BOTH, up) && !up.final.main.failed
    ensures W.Faithful(c.pack, A, x) && W.Made(map[], x) == B && x.upload == up
    ensures W.ReportOf(c.uploads, A, run, x) == W.Success(run.task, "exit status 0", "output")
  {
    x := W.Execution(None, W.Succeeded("exit status 0"), (f: W.Files) => f["b" := [2]], W.Listed,
                     up, W.Clearing(W.Listed, ["a", "b"], map[]));
    assert W.Made(A, x) == BOTH && "a" in BOTH;
    hide U.Valid, U.Run;
    assert W.UploadMade(c.uploads, A, x);
  }

  lemma ExecuteRun(c: Config, s0: State, run: Q.Run, x: W.Execution) returns (s: State)
    requires Reachable(c, s0) && s0.receiver.Checking? && s0.executor.Selecting? && !s0.ctxDone
    requires W.Faithful(c.pack, s0.output, x) && Runnable(c, run)
    ensures Reachable(c, s)
    ensures s == s0.(receiver := Checking, handled := s0.handled + [OneMessage(run)],
                     received := s0.received + [run], finished := s0.finished + [Entry(run, x, s0.output)],
                     reports := s0.reports + [W.ReportOf(c.uploads, s0.output, run, x)],
                     output := W.OutputAfter(c.uploads, s0.output, x))
  {
    W.CommandIsWhole(c.entrypoint, c.cmd, run);
    hide Reachable, W.Faithful, W.ReportOf, W.OutputAfter, W.Command;
    s := TakeRun(c, s0, run);
    s := TakeStep(c, s, Execute(x));
    s := TakeStep(c, s, NextReceive);
  }

  /** It happens: a run that fails after writing "a" leaves it to the next one, whose dataset
      then holds "a" besides the "b" it wrote itself. */
  lemma OutputsCanMix(c: Config, fan: F.Config, first: Q.Run, second: Q.Run) returns (s: State)
    requires c.uploads && fan.mode.Upload? && Runnable(c, first) && Runnable(c, second)
    ensures Reachable(c, s) && |s.finished| == 2 && s.finished[0].run == first && s.finished[1].run == second
    ensures s.finished[0].before == map[] && W.Made(map[], s.finished[1].x) == B
    ensures s.reports == [W.Failure(first.task, "exit status 1", ""),
                          W.Success(second.task, "exit status 0", "output")]
    ensures W.Holds(c.pack, BOTH, s.finished[1].x.upload)
  {
    var up := UploadOf(c, fan, BOTH);
    var x1 := WritesAndFails(c, first, up);
    var x2 := WritesAndSucceeds(c, second, up);
    hide W.RanOn, W.Holds, W.Faithful, W.ReportOf, W.OutputAfter, W.Command, W.Runnable, W.Made, A, B, BOTH;
    s := Init(map[]);
    assert Valid(c, s, []) && s == Run(c, s, []);
    hide Reachable;
    s := ExecuteRun(c, s, first, x1);
    s := ExecuteRun(c, s, second, x2);
  }
}
