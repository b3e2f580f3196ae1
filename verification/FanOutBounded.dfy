/** Every run of the fan-out/fan-in ends: the number of its steps is bounded by the number of
    items read. */
module FanOutBounded {
  import opened Prelude
  import opened FanOut
  import opened FanOutSafety

  /* ---------- the steps still ahead ---------- */

  /** Steps still ahead of a worker. */
  function WorkerRank(pc: WorkerPc): nat {
    match pc
    case Checking => 9
    case Trying(n) => if n == 0 then 8 else if n == 1 then 6 else 4
    case Calling(n) => if n == 0 then 7 else if n == 1 then 5 else 3
    case Reporting => 2
    case Offering(_) => 1
    case Exited => 0
  }

  function WorkersRank(workers: map<nat, WorkerPc>, n: nat): nat {
    if n == 0 then 0
    else WorkersRank(workers, n - 1) + (if n - 1 in workers then WorkerRank(workers[n - 1]) else 0)
  }

  function ProducerRank(pc: ProducerPc): nat {
    match pc
    case Reading => 3
    case Sending(_) => 17
    case Spawning => 13
    case SendingError => 2
    case Closing => 1
    case Stopped => 0
  }

  function FanInRank(pc: FanInPc): nat {
    match pc
    case Selecting => 1
    case Awaiting(_) => 3
    case Writing(_) => 2
    case Returned(_, _, _) => 0
  }

  /** A bound on the steps that need no further item from the source. */
  function StepsLeft(s: State): nat {
    ProducerRank(s.producer) + WorkersRank(s.workers, |s.items|) + 3 * |s.queue|
    + FanInRank(s.fanIn) + (if s.cancelled then 0 else 1)
  }

  const STEPS_PER_ITEM := 15

  function Allowance(a: Action): nat {
    if a.ForeignUpload? then 1
    else if a.Produce? && a.p.ReadItem? then STEPS_PER_ITEM
    else 0
  }

  lemma {:induction false} RankUnchanged(left: map<nat, WorkerPc>, right: map<nat, WorkerPc>, n: nat)
    requires forall j :: 0 <= j < n ==> (j in left <==> j in right)
    requires forall j :: 0 <= j < n && j in left ==> left[j] == right[j]
    ensures WorkersRank(left, n) == WorkersRank(right, n)
  {
    if n > 0 {
      RankUnchanged(left, right, n - 1);
    }
  }

  lemma {:induction false} RankUpdated(workers: map<nat, WorkerPc>, i: nat, pc: WorkerPc, n: nat)
    requires i < n
    ensures
      WorkersRank(workers[i := pc], n) + (if i in workers then WorkerRank(workers[i]) else 0)
      == WorkersRank(workers, n) + WorkerRank(pc)
  {
    if n == i + 1 {
      RankUnchanged(workers[i := pc], workers, i);
    } else {
      RankUpdated(workers, i, pc, n - 1);
    }
  }

  lemma ReadingUsesAllowance(c: Config, s: State, item: Bytes)
    requires ProducerCan(c, s, ReadItem(item)) && |s.items| !in s.workers
    ensures StepsLeft(ProducerStepped(c, s, ReadItem(item))) + 1 <= StepsLeft(s) + STEPS_PER_ITEM
  {
  }

  lemma SpawningUsesStep(c: Config, s: State)
    requires ProducerCan(c, s, SpawnWorker)
    ensures StepsLeft(ProducerStepped(c, s, SpawnWorker)) + 1 <= StepsLeft(s)
  {
    var n := |s.items|;
    RankUpdated(s.workers, n - 1, FirstPc(c), n);
  }

  lemma ProducerUsesStep(c: Config, s: State, p: ProducerStep)
    requires ProducerCan(c, s, p) && !p.ReadItem? && !p.SpawnWorker?
    ensures StepsLeft(ProducerStepped(c, s, p)) + 1 <= StepsLeft(s)
  {
    hide WorkersRank;
  }

  lemma WorkerUsesStep(c: Config, s: State, i: nat, w: WorkerStep)
    requires WorkerCan(c, s, i, w)
    ensures StepsLeft(WorkerStepped(c, s, i, w)) + 1 <= StepsLeft(s)
  {
    RankUpdated(s.workers, i, WorkerMoves(c, s.workers[i], w), |s.items|);
  }

  lemma FanInUsesStep(c: Config, s: State, f: FanInStep)
    requires FanInCan(c, s, f)
    requires f.TakeResult? ==> s.fanIn.item < |s.items|
    ensures StepsLeft(FanInStepped(c, s, f)) + 1 <= StepsLeft(s)
  {
    hide WorkersRank;
    if f.TakeResult? {
      RankUpdated(s.workers, s.fanIn.item, Exited, |s.items|);
    }
  }

  lemma WorkersBelongToItems(c: Config, s: State, i: nat)
    requires Inv(c, s) && i in s.workers
    ensures i < |s.items|
  {
    assert i in s.sent;
  }

  lemma StepIsPaidFor(c: Config, s: State, a: Action)
    requires Inv(c, s) && Enabled(c, s, a)
    ensures StepsLeft(Apply(c, s, a)) + 1 <= StepsLeft(s) + Allowance(a)
  {
    hide Inv;
    match a {
      case Produce(p) =>
        if p.ReadItem? {
          if |s.items| in s.workers {
            WorkersBelongToItems(c, s, |s.items|);
          }
          ReadingUsesAllowance(c, s, p.item);
        } else if p.SpawnWorker? {
          SpawningUsesStep(c, s);
        } else {
          ProducerUsesStep(c, s, p);
        }
      case Work(i, w) => WorkerUsesStep(c, s, i, w);
      case Collect(f) =>
        if f.TakeResult? {
          WorkersBelongToItems(c, s, s.fanIn.item);
        }
        FanInUsesStep(c, s, f);
      case Cancel =>
      case ForeignUpload(_) =>
    }
  }

  function Allowances(acts: seq<Action>): nat {
    if acts == [] then 0 else Allowance(acts[0]) + Allowances(acts[1..])
  }

  lemma {:induction false} RunIsPaidFor(c: Config, s: State, acts: seq<Action>)
    requires Inv(c, s) && Valid(c, s, acts)
    ensures StepsLeft(Run(c, s, acts)) + |acts| <= StepsLeft(s) + Allowances(acts)
    decreases |acts|
  {
    hide Inv, StepsLeft, Allowance;
    if acts != [] {
      StepIsPaidFor(c, s, acts[0]);
      StepKeepsInv(c, s, acts[0]);
      RunIsPaidFor(c, Apply(c, s, acts[0]), acts[1..]);
    }
  }

  /** No run is longer than five steps, fifteen more for each item read, and one for each
      chunk another upload stores. */
  lemma RunsAreBounded(c: Config, store: map<Bytes, Bytes>, acts: seq<Action>)
    requires Starts(c, store, acts)
    ensures |acts| <= 5 + Allowances(acts)
  {
    InitInv(c, store);
    RunIsPaidFor(c, Init(store), acts);
  }
}
