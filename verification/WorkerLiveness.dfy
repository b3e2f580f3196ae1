/** When the worker goes on and when it does not: it receives as long as no receive has failed
    and its context lives, and a run that waits can be executed as long as Start has not
    returned; and neither otherwise. */
module WorkerLiveness {
  import opened Prelude
  import opened WorkerLoop
  import Q = Queue
  import W = Worker
  import F = FanOut
  import U = UploadProcess
  import Index

  /* ---------- what each state says about the past ---------- */

  predicate Failing(s: State) {
    s.receiver.SendingError? || s.receiver.Exited?
  }

  /** The receiver ends for a failed call or the context, and Start for the context only. */
  predicate EndsForCause(s: State) {
    && (s.failed ==> Failing(s))
    && (s.receiver.SendingError? ==> s.failed)
    && (s.receiver.Exited? ==> s.failed || s.ctxDone)
    && (s.executor.Finished? ==> s.ctxDone)
  }

  lemma StepKeepsCause(c: Config, s: State, a: Action)
    requires EndsForCause(s) && Enabled(c, s, a)
    ensures EndsForCause(Apply(c, s, a))
  {
    hide W.ReportOf, W.OutputAfter, W.Faithful, Q.Received;
  }

  lemma {:induction false} RunKeepsCause(c: Config, s: State, acts: seq<Action>)
    requires EndsForCause(s) && Valid(c, s, acts)
    ensures EndsForCause(Run(c, s, acts))
    decreases |acts|
  {
    hide EndsForCause, Enabled, Apply;
    if acts != [] {
      StepKeepsCause(c, s, acts[0]);
      RunKeepsCause(c, Apply(c, s, acts[0]), acts[1..]);
    }
  }

  lemma ReachableCause(c: Config, s: State)
    requires Reachable(c, s)
    ensures EndsForCause(s)
  {
    var output, acts :| Valid(c, Init(output), acts) && s == Run(c, Init(output), acts);
    RunKeepsCause(c, Init(output), acts);
  }

  /* ---------- what can follow ---------- */

  /** The worker can get from `s` to `t` without its context being cancelled on the way. */
  ghost predicate Leads(c: Config, s: State, t: State) {
    exists acts :: Valid(c, s, acts) && Cancel !in acts && t == Run(c, s, acts)
  }

  lemma LeadsToItself(c: Config, s: State)
    ensures Leads(c, s, s)
  {
    assert Valid(c, s, []) && Cancel !in [] && s == Run(c, s, []);
  }

  lemma LeadsOn(c: Config, s: State, t: State, a: Action) returns (u: State)
    requires Leads(c, s, t) && Enabled(c, t, a) && !a.Cancel?
    ensures u == Apply(c, t, a) && Leads(c, s, u)
  {
    hide Apply, Enabled;
    var acts :| Valid(c, s, acts) && Cancel !in acts && t == Run(c, s, acts);
    RunExtends(c, s, acts, a);
    assert Cancel !in acts + [a];
    u := Apply(c, t, a);
  }

  lemma {:induction false} NamesOf(keys: set<string>) returns (names: seq<string>)
    ensures forall k :: k in names <==> k in keys
    decreases keys
  {
    if keys == {} {
      names := [];
    } else {
      var k :| k in keys;
      var rest := NamesOf(keys - {k});
      names := [k] + rest;
    }
  }

  /** Whatever is in the output directory, some execution is possible: one that cannot start. */
  lemma SomeExecution(c: Config, files: W.Files) returns (x: W.Execution)
    ensures W.Faithful(c.pack, files, x)
  {
    var names := NamesOf(files.Keys);
    var key: Index.Key := seq(Index.KEY_SIZE, _ => 0);
    var none := W.UploadRun(None, U.Config(F.Config(F.Upload, 0, false, _ => key), []), U.Init(map[]));
    x := W.Execution(Some("not found"), W.WaitFails(""), (f: W.Files) => f, W.Listed, none,
                     W.Clearing(W.Listed, names, map[]));
    hide U.Init, F.Init;
  }

  /** The run in progress comes to an end, and nothing else changes meanwhile. */
  lemma FinishRun(c: Config, s: State, t: State) returns (u: State)
    requires Leads(c, s, t) && !t.executor.Finished?
    ensures Leads(c, s, u) && u.executor.Selecting? && u.receiver == t.receiver && u.ctxDone == t.ctxDone
    ensures Taken(u) == Taken(t)
  {
    u := t;
    if t.executor.Executing? {
      var x := SomeExecution(c, t.output);
      hide Leads, W.Faithful, W.ReportOf, W.OutputAfter;
      u := LeadsOn(c, s, t, Execute(x));
      RunsOfSnoc(t.finished, Entry(t.executor.run, x, t.output));
      assert Taken(u) == Taken(t);
    }
  }

  /** The waiting run is handed over. */
  lemma HandOver(c: Config, s: State) returns (t: State)
    requires Reachable(c, s) && !s.executor.Finished? && Waiting(s) != []
    ensures Leads(c, s, t) && t.receiver == Sending([]) && t.ctxDone == s.ctxDone
    ensures Taken(t) == Taken(s) + Waiting(s)
  {
    ExecutedInReceiptOrder(c, s);
    LeadsToItself(c, s);
    hide Reachable, Leads;
    var u := FinishRun(c, s, s);
    t := LeadsOn(c, s, u, Hand);
    assert Waiting(s) == [Waiting(s)[0]];
    assert t.receiver.rest == [];
    assert Taken(t) == Taken(u) + [Waiting(s)[0]];
  }

  lemma CanReceive(c: Config, s: State) returns (t: State)
    requires Reachable(c, s) && !s.ctxDone && !s.failed
    ensures Leads(c, s, t) && t.receiver.Receiving? && Taken(t) == Taken(s) + Waiting(s)
  {
    ReachableCause(c, s);
    LeadsToItself(c, s);
    t := s;
    assert Taken(s) + [] == Taken(s);
    if Waiting(s) != [] {
      t := HandOver(c, s);
    }
    hide Reachable, Leads;
    if t.receiver.Sending? {
      t := LeadsOn(c, s, t, NextReceive);
    }
    if t.receiver.Checking? {
      t := LeadsOn(c, s, t, Check);
    }
  }

  /* ---------- receiving ---------- */

  /** After a failed receive no run is received or started any more: at most the one in
      progress is finished, and Start returns only if its context ends. */
  lemma {:induction false} FailedReceiveIsFinal(c: Config, s: State, acts: seq<Action>)
    requires Failing(s) && Valid(c, s, acts)
    ensures
      var t := Run(c, s, acts);
      && Failing(t) && t.received == s.received && Taken(t) == Taken(s)
      && (s.ctxDone ==> t.ctxDone)
      && (t.executor.Finished? ==> s.executor.Finished? || t.ctxDone)
    decreases |acts|
  {
    if acts != [] {
      FailingStays(c, s, acts[0]);
      hide Apply, Enabled, Taken, Failing;
      FailedReceiveIsFinal(c, Apply(c, s, acts[0]), acts[1..]);
    }
  }

  lemma FailingStays(c: Config, s: State, a: Action)
    requires Failing(s) && Enabled(c, s, a)
    ensures
      var t := Apply(c, s, a);
      && Failing(t) && t.received == s.received && Taken(t) == Taken(s) && (s.ctxDone ==> t.ctxDone)
      && (t.executor.Finished? ==> s.executor.Finished? || t.ctxDone)
  {
    hide W.ReportOf, W.OutputAfter, W.Faithful, Q.Received;
    if a.Execute? {
      RunsOfSnoc(s.finished, Entry(s.executor.run, a.x, s.output));
    }
    assert Taken(Apply(c, s, a)) == Taken(s);
  }

  /** As long as its context lives the worker can go on receiving, with all it has received
      handed on to be executed, exactly if no receive has failed yet. */
  lemma ReceivesOnIffNoneFailed(c: Config, s: State)
    requires Reachable(c, s) && !s.ctxDone
    ensures !s.failed <==>
      exists t :: Leads(c, s, t) && t.receiver.Receiving? && Taken(t) == Taken(s) + Waiting(s)
  {
    ReachableCause(c, s);
    if s.failed {
      forall t | Leads(c, s, t) ensures !t.receiver.Receiving? {
        var acts :| Valid(c, s, acts) && Cancel !in acts && t == Run(c, s, acts);
        FailedReceiveIsFinal(c, s, acts);
      }
    } else {
      var t := CanReceive(c, s);
    }
  }

  /** Once a failed receive has been reported and the run in progress is done, only the end of
      the context can follow. */
  predicate Stranded(s: State) {
    s.receiver.Exited? && s.executor.Selecting? && !s.ctxDone
  }

  lemma StrandedWaitsForCancel(c: Config, s: State, a: Action)
    requires Stranded(s)
    ensures Enabled(c, s, a) <==> a.Cancel?
  {
  }

  /** It happens at the first failed receive, with nothing done and a live context. */
  lemma FailedReceiveStrands(c: Config, output: W.Files, polls: seq<Q.Poll>) returns (s: State)
    ensures Reachable(c, s) && Stranded(s) && s.failed
  {
    s := Init(output);
    assert Valid(c, s, []) && s == Run(c, s, []);
    assert Q.Received(true, polls) == (Q.Failed, []);
    hide Reachable, Q.Received;
    s := TakeStep(c, s, Check);
    s := TakeStep(c, s, ReceiveReturns(true, polls));
    s := TakeStep(c, s, HandError);
  }

  /* ---------- the run that waits ---------- */

  lemma {:induction false} FinishedTakesNoMore(c: Config, s: State, acts: seq<Action>)
    requires s.executor.Finished? && Valid(c, s, acts)
    ensures
      var t := Run(c, s, acts);
      t.executor.Finished? && t.finished == s.finished && t.reports == s.reports
    decreases |acts|
  {
    if acts != [] {
      hide Q.Received;
      FinishedTakesNoMore(c, Apply(c, s, acts[0]), acts[1..]);
    }
  }

  /** A run that was received and waits can still be executed exactly as long as Start has
      not returned; after that it never is. */
  lemma WaitingRunIsLostIff(c: Config, s: State)
    requires Reachable(c, s) && Waiting(s) != []
    ensures !s.executor.Finished? <==> exists t :: Leads(c, s, t) && Taken(t) == Taken(s) + Waiting(s)
  {
    if s.executor.Finished? {
      forall t | Leads(c, s, t) ensures Taken(t) != Taken(s) + Waiting(s) {
        var acts :| Valid(c, s, acts) && Cancel !in acts && t == Run(c, s, acts);
        FinishedTakesNoMore(c, s, acts);
        assert |Taken(t)| == |Taken(s)|;
      }
    } else {
      var t := HandOver(c, s);
    }
  }

  /** It happens: a run whose message is gone from the queue is neither executed nor reported
      if the context ends between receiving and handing it over. */
  lemma ReceivedRunCanBeLost(c: Config, output: W.Files, run: Q.Run) returns (s: State)
    ensures Reachable(c, s)
    ensures s.executor.Finished? && Waiting(s) == [run] && s.finished == [] && s.reports == []
    ensures |s.handled| == 1 && Q.Gone(s.handled[0]) && s.handled[0].body == Some(run)
  {
    s := Init(output);
    assert Valid(c, s, []) && s == Run(c, s, []);
    OneReceived(run);
    hide Reachable, Q.Received;
    s := TakeStep(c, s, Check);
    s := TakeStep(c, s, ReceiveReturns(false, [Q.Messages([OneMessage(run)])]));
    s := TakeStep(c, s, Cancel);
    s := TakeStep(c, s, Stop);
  }

  /* ---------- the end of the context ---------- */

  lemma CancelledStops(c: Config, s: State, a: Action)
    requires s.ctxDone && !s.receiver.Receiving? && Enabled(c, s, a)
    ensures
      var t := Apply(c, s, a);
      t.ctxDone && !t.receiver.Receiving? && t.handled == s.handled && t.received == s.received
  {
    hide W.ReportOf, W.OutputAfter, W.Faithful, W.Command, Q.Received;
  }

  /** Once the context is done no message is taken from the queue any more, but those of the call
      in progress. */
  lemma {:induction false} NoReceiveAfterCancel(c: Config, s: State, acts: seq<Action>)
    requires s.ctxDone && !s.receiver.Receiving? && Valid(c, s, acts)
    ensures Run(c, s, acts).handled == s.handled && Run(c, s, acts).received == s.received
    decreases |acts|
  {
    hide Enabled, Apply;
    if acts != [] {
      CancelledStops(c, s, acts[0]);
      NoReceiveAfterCancel(c, Apply(c, s, acts[0]), acts[1..]);
    }
  }

  lemma {:induction false} ContextLivesOn(c: Config, s: State, acts: seq<Action>)
    requires Valid(c, s, acts) && Cancel !in acts
    ensures Run(c, s, acts).ctxDone == s.ctxDone
    decreases |acts|
  {
    hide W.ReportOf, W.OutputAfter, W.Faithful, W.Command, Q.Received;
    if acts != [] {
      ContextLivesOn(c, Apply(c, s, acts[0]), acts[1..]);
    }
  }

  /** Start can return exactly if its context is done, whatever its goroutines are at. */
  lemma StartReturnsIff(c: Config, s: State)
    requires Reachable(c, s)
    ensures s.ctxDone <==> exists t :: Leads(c, s, t) && t.executor.Finished?
  {
    if s.ctxDone {
      LeadsToItself(c, s);
      var t := s;
      hide Reachable, Leads;
      if !s.executor.Finished? {
        t := FinishRun(c, s, s);
        t := LeadsOn(c, s, t, Stop);
      }
    } else {
      forall t | Leads(c, s, t) ensures !t.executor.Finished? {
        var acts :| Valid(c, s, acts) && Cancel !in acts && t == Run(c, s, acts);
        ContextLivesOn(c, s, acts);
        ReachableCause(c, s);
        RunKeepsCause(c, s, acts);
      }
    }
  }

  /** The receiver is at a send on runCh, which has no other way out. */
  predicate AtSend(s: State) {
    s.receiver.SendingError? || (s.receiver.Sending? && s.receiver.rest != [])
  }

  lemma {:induction false} SendsForever(c: Config, s: State, acts: seq<Action>)
    requires s.executor.Finished? && AtSend(s) && Valid(c, s, acts)
    ensures AtSend(Run(c, s, acts))
    decreases |acts|
  {
    if acts != [] {
      hide Q.Received;
      SendsForever(c, Apply(c, s, acts[0]), acts[1..]);
    }
  }

  lemma ReceiverExits(c: Config, s: State) returns (t: State)
    requires s.ctxDone && !AtSend(s)
    ensures Leads(c, s, t) && t.receiver.Exited?
  {
    LeadsToItself(c, s);
    t := s;
    hide Leads;
    if t.receiver.Receiving? {
      assert Q.Received(false, []) == (Q.Runs([]), []);
      hide Q.Received;
      t := LeadsOn(c, s, t, ReceiveReturns(false, []));
    }
    if t.receiver.Sending? {
      t := LeadsOn(c, s, t, NextReceive);
    }
    if t.receiver.Checking? {
      t := LeadsOn(c, s, t, Check);
    }
  }

  /** Once Start has returned, the receiver is left behind for good exactly if it is at a send:
      nobody receives from runCh any more (working.go:235 and 240). */
  lemma ReceiverIsLeakedIff(c: Config, s: State)
    requires Reachable(c, s) && s.executor.Finished?
    ensures AtSend(s) <==> !exists t :: Leads(c, s, t) && t.receiver.Exited?
  {
    if AtSend(s) {
      forall t | Leads(c, s, t) ensures !t.receiver.Exited? {
        var acts :| Valid(c, s, acts) && Cancel !in acts && t == Run(c, s, acts);
        SendsForever(c, s, acts);
      }
    } else {
      ReachableCause(c, s);
      hide Reachable;
      var t := ReceiverExits(c, s);
    }
  }
}
