/** Receiving a task run from a queue (nerd/client/batch/v1/task.go:79-118). A script says what
    the queue and the server answer, poll after poll; when it ends the timeout has passed. */
module Queue {
  import opened Prelude

  datatype Run = Run(task: int, command: seq<string>)

  datatype Heartbeat = Alive | HasExpired | HeartbeatFails

  /** Deleting may fail after the message is gone. */
  datatype Deletion = Deleted | DeletionFails(gone: bool)

  /** A message handed out, and what decoding, deleting and heartbeating it come to. */
  datatype Delivery = Delivery(message: nat, body: Option<Run>, deletion: Deletion, heartbeat: Heartbeat)

  datatype Poll = Messages(deliveries: seq<Delivery>) | PollFails

  datatype Result = Runs(runs: seq<Run>) | Failed

  /** How one delivery ends the call, or does not. */
  datatype Fate = Discarded | Returned | Broken

  function FateOf(d: Delivery): Fate {
    if d.body.None? || d.deletion.DeletionFails? then Broken
    else if d.heartbeat.Alive? then Returned
    else Discarded
  }

  /** The message is no longer in the queue once the delivery has been handled. */
  predicate Gone(d: Delivery) {
    d.body.Some? && (d.deletion.Deleted? || d.deletion.gone)
  }

  function Removed(d: Delivery): seq<nat> {
    if Gone(d) then [d.message] else []
  }

  function GoneMessages(ds: seq<Delivery>): seq<nat> {
    if ds == [] then []
    else GoneMessages(ds[..|ds| - 1]) + Removed(ds[|ds| - 1])
  }

  /** All deliveries up to the first poll that fails. */
  function Deliveries(polls: seq<Poll>): seq<Delivery> {
    if polls == [] || polls[0].PollFails? then []
    else polls[0].deliveries + Deliveries(polls[1..])
  }

  predicate SomePollFails(polls: seq<Poll>) {
    exists i :: 0 <= i < |polls| && polls[i].PollFails?
  }

  /** Position of the delivery that ends the call, or how many there are if none does. */
  function Decisive(ds: seq<Delivery>): (n: nat)
    ensures n <= |ds|
    ensures forall i :: 0 <= i < n ==> FateOf(ds[i]).Discarded?
    ensures n < |ds| ==> !FateOf(ds[n]).Discarded?
  {
    if ds == [] || !FateOf(ds[0]).Discarded? then 0 else 1 + Decisive(ds[1..])
  }

  /** What the call returns, and the deliveries it looked at. */
  function Received(describeFails: bool, polls: seq<Poll>): (Result, seq<Delivery>) {
    if describeFails then (Failed, [])
    else
      var ds := Deliveries(polls);
      var n := Decisive(ds);
      if n < |ds| then
        (if FateOf(ds[n]).Returned? then Runs([ds[n].body.value]) else Failed, ds[..n + 1])
      else (if SomePollFails(polls) then Failed else Runs([]), ds)
  }

  ghost predicate AllDiscarded(ds: seq<Delivery>, h: nat) {
    h <= |ds| && forall i :: 0 <= i < h ==> FateOf(ds[i]).Discarded?
  }

  /** The deliveries from `h` on are those of the polls from `n` on. */
  ghost predicate Ahead(ds: seq<Delivery>, h: nat, polls: seq<Poll>, n: nat) {
    h <= |ds| && n <= |polls| && ds[h..] == Deliveries(polls[n..])
  }

  lemma AheadAtStart(polls: seq<Poll>)
    ensures Ahead(Deliveries(polls), 0, polls, 0)
  {
    assert polls[0..] == polls;
    assert Deliveries(polls)[0..] == Deliveries(polls);
  }

  lemma AheadAtEnd(ds: seq<Delivery>, h: nat, polls: seq<Poll>, n: nat)
    requires Ahead(ds, h, polls, n) && (n == |polls| || polls[n].PollFails?)
    ensures h == |ds|
  {
  }

  lemma AheadOfBatch(ds: seq<Delivery>, h: nat, polls: seq<Poll>, n: nat)
    requires Ahead(ds, h, polls, n) && n < |polls| && polls[n].Messages?
    ensures
      var out := polls[n].deliveries;
      && Ahead(ds, h + |out|, polls, n + 1)
      && forall k :: 0 <= k < |out| ==> ds[h + k] == out[k]
  {
    var out := polls[n].deliveries;
    assert polls[n..][1..] == polls[n + 1..];
    assert ds[h..] == out + Deliveries(polls[n + 1..]);
    assert ds[h + |out|..] == ds[h..][|out|..];
    forall k | 0 <= k < |out| ensures ds[h + k] == out[k] {
      assert ds[h + k] == ds[h..][k];
    }
  }

  /** What left the queue since `was` is what the deliveries before `h` removed. */
  ghost predicate Cleared(was: seq<nat>, gone: seq<nat>, ds: seq<Delivery>, h: nat) {
    h <= |ds| && gone == was + GoneMessages(ds[..h])
  }

  lemma ClearOne(was: seq<nat>, gone: seq<nat>, ds: seq<Delivery>, h: nat)
    requires Cleared(was, gone, ds, h) && h < |ds|
    ensures Cleared(was, gone + Removed(ds[h]), ds, h + 1)
  {
    assert ds[..h + 1][..h] == ds[..h];
    Assoc(was, GoneMessages(ds[..h]), Removed(ds[h]));
  }

  lemma EndsAt(polls: seq<Poll>, n: nat)
    requires n < |Deliveries(polls)| && !FateOf(Deliveries(polls)[n]).Discarded?
    requires AllDiscarded(Deliveries(polls), n)
    ensures
      var ds := Deliveries(polls);
      Received(false, polls)
        == (if FateOf(ds[n]).Returned? then Runs([ds[n].body.value]) else Failed, ds[..n + 1])
  {
    hide FateOf, Deliveries;
    assert Decisive(Deliveries(polls)) == n;
  }

  lemma EndsNowhere(polls: seq<Poll>)
    requires AllDiscarded(Deliveries(polls), |Deliveries(polls)|)
    ensures Received(false, polls).1 == Deliveries(polls)
    ensures Received(false, polls).0 == if SomePollFails(polls) then Failed else Runs([])
  {
    hide FateOf, Deliveries;
    assert Decisive(Deliveries(polls)) == |Deliveries(polls)|;
  }

  lemma AheadIsInside(ds: seq<Delivery>, h: nat, polls: seq<Poll>, n: nat)
    requires Ahead(ds, h, polls, n)
    ensures h <= |ds|
  {
  }

  /** What each of the four branches of the inner loop does is what Received says. */
  lemma HandleOne(polls: seq<Poll>, was: seq<nat>, gone: seq<nat>, h: nat)
    requires h < |Deliveries(polls)| && Cleared(was, gone, Deliveries(polls), h)
    requires AllDiscarded(Deliveries(polls), h)
    ensures
      var d, all := Deliveries(polls)[h], Received(false, polls);
      if d.body.None? then
        all.0 == Failed && gone == was + GoneMessages(all.1)
      else if d.deletion.DeletionFails? then
        all.0 == Failed && (if d.deletion.gone then gone + [d.message] else gone) == was + GoneMessages(all.1)
      else if d.heartbeat.Alive? then
        all.0 == Runs([d.body.value]) && gone + [d.message] == was + GoneMessages(all.1)
      else
        AllDiscarded(Deliveries(polls), h + 1) && Cleared(was, gone + [d.message], Deliveries(polls), h + 1)
  {
    var ds := Deliveries(polls);
    ClearOne(was, gone, ds, h);
    assert gone + [] == gone;
    if !FateOf(ds[h]).Discarded? {
      EndsAt(polls, h);
    }
    hide Deliveries, Received, GoneMessages;
  }

  lemma FinishAll(polls: seq<Poll>, was: seq<nat>, gone: seq<nat>)
    requires AllDiscarded(Deliveries(polls), |Deliveries(polls)|)
    requires Cleared(was, gone, Deliveries(polls), |Deliveries(polls)|)
    ensures gone == was + GoneMessages(Received(false, polls).1)
    ensures (forall i :: 0 <= i < |polls| ==> polls[i].Messages?) ==> Received(false, polls).0 == Runs([])
    ensures (exists i :: 0 <= i < |polls| && polls[i].PollFails?) ==> Received(false, polls).0 == Failed
  {
    EndsNowhere(polls);
    assert Deliveries(polls)[..|Deliveries(polls)|] == Deliveries(polls);
  }

  lemma DescribeFailed(gone: seq<nat>, polls: seq<Poll>)
    ensures Received(true, polls).0 == Failed && gone == gone + GoneMessages(Received(true, polls).1)
  {
  }

  lemma NothingHandled(polls: seq<Poll>, gone: seq<nat>)
    ensures Ahead(Deliveries(polls), 0, polls, 0)
    ensures AllDiscarded(Deliveries(polls), 0) && Cleared(gone, gone, Deliveries(polls), 0)
  {
    AheadAtStart(polls);
  }

  /** The client's view of the queue. */
  class QueueClient {
    var gone: seq<nat>         // messages that left the queue, in order

    constructor ()
      ensures gone == []
    {
      gone := [];
    }

    method ReceiveTaskRuns(describeFails: bool, polls: seq<Poll>) returns (r: Result)
      modifies this
      ensures r == Received(describeFails, polls).0
      ensures gone == old(gone) + GoneMessages(Received(describeFails, polls).1)
    {
      hide *;
      if describeFails {
        DescribeFailed(gone, polls);
        return Failed;
      }
      ghost var ds, handled, was := Deliveries(polls), 0, gone;
      NothingHandled(polls, gone);
      var output := [];
      var n := 0;
      while n < |polls|
        invariant 0 <= n <= |polls| && output == [] && 0 <= handled <= |ds|
        invariant forall i :: 0 <= i < n ==> polls[i].Messages?
        invariant Ahead(ds, handled, polls, n) && Cleared(was, gone, ds, handled)
        invariant AllDiscarded(ds, handled)
      {
        if polls[n].PollFails? {
          AheadAtEnd(ds, handled, polls, n);
          FinishAll(polls, was, gone);
          return Failed;
        }
        var out := polls[n].deliveries;
        AheadOfBatch(ds, handled, polls, n);
        AheadIsInside(ds, handled + |out|, polls, n + 1);
        ghost var start := handled;
        var k := 0;
        while k < |out|
          invariant 0 <= k <= |out| && handled == start + k && output == []
          invariant AllDiscarded(ds, handled)
          invariant Cleared(was, gone, ds, handled)
        {
          var d := out[k];
          assert ds[start + k] == d;
          HandleOne(polls, was, gone, handled);
          if d.body.None? {
            return Failed;
          }
          if d.deletion.DeletionFails? {
            if d.deletion.gone {
              gone := gone + [d.message];
            }
            return Failed;
          }
          gone := gone + [d.message];
          k := k + 1;
          if !d.heartbeat.Alive? {
            handled := handled + 1;
            continue;
          }
          output := output + [d.body.value];
          return Runs(output);
        }
        n := n + 1;
      }
      AheadAtEnd(ds, handled, polls, n);
      FinishAll(polls, was, gone);
      r := Runs(output);
    }
  }

  /** What is gone from the queue afterwards: expired or unreachable runs, then at most one
      more, which is the run returned, or the message on which a failed call broke off. Every
      handled message is gone but possibly that last one, and one that is not gone is handled
      only by a call that fails. */
  lemma DeletedMessagesAreAccountedFor(describeFails: bool, polls: seq<Poll>)
    ensures
      var (r, ds) := Received(describeFails, polls);
      && (forall i :: 0 <= i < |ds| - 1 ==> Gone(ds[i]) && FateOf(ds[i]).Discarded?)
      && (r.Runs? ==> |r.runs| <= 1 && forall i :: 0 <= i < |ds| ==> Gone(ds[i]))
      && (r.Runs? && r.runs != [] ==>
            ds != [] && FateOf(ds[|ds| - 1]).Returned? && r.runs == [ds[|ds| - 1].body.value])
      && (r == Runs([]) ==> forall i :: 0 <= i < |ds| ==> FateOf(ds[i]).Discarded?)
      && (r.Failed? && ds != [] ==> !FateOf(ds[|ds| - 1]).Returned?)
  {
  }

  /** The message was decoded and deleted, and the server said that the run is still alive. */
  predicate StillWanted(d: Delivery) {
    d.body.Some? && d.deletion.Deleted? && d.heartbeat.Alive?
  }

  /** It was decoded and deleted, but the run had expired, or the server could not be asked. */
  predicate NotWanted(d: Delivery) {
    d.body.Some? && d.deletion.Deleted? && !d.heartbeat.Alive?
  }

  /** A run is returned exactly if it is the first of the deliveries that is not unwanted, and is
      still wanted; the call fails exactly if that first one cannot be decoded or deleted, or
      there is none before a poll that fails; and it returns nothing exactly if there is none
      before the timeout. */
  lemma FirstWantedIsReturned(polls: seq<Poll>)
    ensures
      var ds := Deliveries(polls);
      var (r, seen) := Received(false, polls);
      var n := Decisive(ds);
      && (forall i :: 0 <= i < n ==> NotWanted(ds[i]))
      && (n < |ds| ==> !NotWanted(ds[n]) && seen == ds[..n + 1])
      && (n == |ds| ==> seen == ds)
      && (forall run :: r == Runs([run]) <==> n < |ds| && StillWanted(ds[n]) && ds[n].body == Some(run))
      && (r == Failed <==> if n < |ds| then !StillWanted(ds[n]) else SomePollFails(polls))
      && (r == Runs([]) <==> n == |ds| && !SomePollFails(polls))
  {
    hide Deliveries;
  }
}
