/** The retrying client in front of the object store
    (nerd/service/datatransfer/v1/client/client.go). What the context and the backend do at
    each attempt is a parameter of every call. */
module DataClient {
  import opened Prelude
  import Pipes

  /** One turn of the retry loop: the context at its check and, if the backend is called,
      whether it works; a failing call may have consumed part of the body, and may have
      stored the object although it reports an error. */
  datatype Attempt = Attempt(ctxDone: bool, works: bool, consumed: nat, kept: bool)

  type Attempts = env: seq<Attempt> | |env| == Pipes.NO_OF_RETRIES + 1
    witness seq(Pipes.NO_OF_RETRIES + 1, _ => Attempt(true, false, 0, false))

  datatype Outcome = Done | Stopped | Exhausted

  /** The outcome is decided by the first attempt that finds the context done or works. */
  function OutcomeOf(env: seq<Attempt>): Outcome {
    if env == [] then Exhausted
    else if env[0].ctxDone then Stopped
    else if env[0].works then Done
    else OutcomeOf(env[1..])
  }

  /** Bytes of the body that failing attempts consumed before the outcome was decided. */
  function Consumed(env: seq<Attempt>): nat {
    if env == [] || env[0].ctxDone || env[0].works then 0
    else env[0].consumed + Consumed(env[1..])
  }

  /** The bytes consumed by the first `n` attempts. */
  function ConsumedBy(env: seq<Attempt>, n: nat): nat
    requires n <= |env|
  {
    if n == 0 then 0 else ConsumedBy(env, n - 1) + env[n - 1].consumed
  }

  /** The attempt at `n` is the first that finds the context done or works; there is none if `n`
      is their number. */
  predicate Decides(env: seq<Attempt>, n: nat) {
    && n <= |env|
    && (forall j :: 0 <= j < n ==> !env[j].ctxDone && !env[j].works)
    && (n < |env| ==> env[n].ctxDone || env[n].works)
  }

  lemma {:induction false} ConsumedFirst(env: seq<Attempt>, n: nat)
    requires 0 < n <= |env|
    ensures ConsumedBy(env, n) == env[0].consumed + ConsumedBy(env[1..], n - 1)
  {
    if n > 1 {
      ConsumedFirst(env, n - 1);
    }
  }

  /** The first attempt to find the context done or to work decides: the context is looked at
      before the call, so an attempt that finds it done counts as stopped even if its call would
      have worked; and what was consumed is what the attempts before it consumed. */
  lemma {:induction false} FirstDecides(env: seq<Attempt>, n: nat)
    requires Decides(env, n)
    ensures OutcomeOf(env) == if n == |env| then Exhausted else if env[n].ctxDone then Stopped else Done
    ensures Consumed(env) == ConsumedBy(env, n)
  {
    if n > 0 {
      forall j | 0 <= j < n - 1 ensures !env[1..][j].ctxDone && !env[1..][j].works {
        assert env[1..][j] == env[j + 1];
      }
      FirstDecides(env[1..], n - 1);
      ConsumedFirst(env, n);
    }
  }

  function Min(a: nat, b: nat): nat {
    if a < b then a else b
  }

  /** An io.ReadSeeker over `data`; the client never seeks. */
  class Body {
    const data: Bytes
    var pos: nat

    constructor (data: Bytes)
      ensures this.data == data && pos == 0
    {
      this.data := data;
      pos := 0;
    }
  }

  class Store {
    var objects: map<Bytes, Bytes>
    var calls: nat                // of DataOps.Upload

    constructor ()
      ensures objects == map[] && calls == 0
    {
      objects, calls := map[], 0;
    }

    /** DataOps.Upload: stores what is left of the body. */
    method Put(key: Bytes, body: Body, a: Attempt) returns (ok: bool)
      requires body.pos <= |body.data|
      modifies this, body
      ensures ok == a.works && calls == old(calls) + 1
      ensures objects == if a.works || a.kept then old(objects)[key := body.data[old(body.pos)..]]
                         else old(objects)
      ensures body.pos == if a.works then |body.data| else Min(|body.data|, old(body.pos) + a.consumed)
    {
      if a.works || a.kept {
        objects := objects[key := body.data[body.pos..]];
      }
      body.pos := if a.works then |body.data| else Min(|body.data|, body.pos + a.consumed);
      calls := calls + 1;
      ok := a.works;
    }
  }

  predicate IsEndOf(part: Bytes, whole: Bytes) {
    |part| <= |whole| && part == whole[|whole| - |part|..]
  }

  lemma OnlyKeyChanged(now: map<Bytes, Bytes>, was: map<Bytes, Bytes>, key: Bytes)
    requires key in now && now - {key} == was - {key}
    ensures now == was[key := now[key]]
  {
    assert now == (now - {key})[key := now[key]];
    assert was[key := now[key]] == (was - {key})[key := now[key]];
  }

  /** Client.Upload. The backend is called at most three times, and never once the context has
      been found done; the call that works is the last. */
  method Upload(store: Store, key: Bytes, body: Body, env: Attempts) returns (r: Outcome, ghost calls: nat)
    requires body.pos == 0
    modifies store, body
    ensures r == OutcomeOf(env)
    ensures store.calls == old(store.calls) + calls && calls <= 3
    ensures forall j :: 0 <= j < calls ==> !env[j].ctxDone && (env[j].works ==> j == calls - 1)
    ensures r.Done? <==> calls > 0 && env[calls - 1].works
    ensures r.Stopped? <==> calls < 3 && env[calls].ctxDone && !r.Done?
    ensures r.Exhausted? ==> calls == 3
    ensures calls == 0 ==> store.objects == old(store.objects)
    ensures r.Done? ==>
      store.objects == old(store.objects)[key := body.data[Min(|body.data|, Consumed(env))..]]
    // no other object changes, and under the key there is what was there or an end of the body
    ensures store.objects - {key} == old(store.objects) - {key}
    ensures key in old(store.objects) ==> key in store.objects
    ensures key in store.objects ==>
      || (key in old(store.objects) && store.objects[key] == old(store.objects)[key])
      || IsEndOf(store.objects[key], body.data)
    ensures (forall a :: a in env ==> !a.works && !a.kept) ==> store.objects == old(store.objects)
  {
    for i := 0 to Pipes.NO_OF_RETRIES + 1
      invariant OutcomeOf(env) == OutcomeOf(env[i..])
      invariant store.calls == old(store.calls) + i
      invariant forall j :: 0 <= j < i ==> !env[j].ctxDone && !env[j].works
      invariant i == 0 ==> store.objects == old(store.objects)
      invariant body.pos <= |body.data|
      invariant Min(|body.data|, Consumed(env)) == Min(|body.data|, body.pos + Consumed(env[i..]))
      invariant store.objects - {key} == old(store.objects) - {key}
      invariant key in old(store.objects) ==> key in store.objects
      invariant key in store.objects ==>
        || (key in old(store.objects) && store.objects[key] == old(store.objects)[key])
        || IsEndOf(store.objects[key], body.data)
      invariant (forall a :: a in env ==> !a.works && !a.kept) ==> store.objects == old(store.objects)
    {
      assert env[i] in env;
      if env[i].ctxDone {
        return Stopped, i;
      }
      var ok := store.Put(key, body, env[i]);
      if ok {
        OnlyKeyChanged(store.objects, old(store.objects), key);
        return Done, i + 1;
      }
    }
    r, calls := Exhausted, Pipes.NO_OF_RETRIES + 1;
  }

  /** Client.Download. */
  method Download(store: Store, key: Bytes, env: Attempts) returns (r: Outcome, data: Bytes)
    requires key !in store.objects ==> forall a :: a in env ==> !a.works
    ensures r == OutcomeOf(env)
    ensures r.Done? ==> key in store.objects && data == store.objects[key]
  {
    data := [];
    for i := 0 to Pipes.NO_OF_RETRIES + 1
      invariant OutcomeOf(env) == OutcomeOf(env[i..])
    {
      if env[i].ctxDone {
        return Stopped, [];
      }
      if env[i].works {
        assert env[i] in env;
        return Done, store.objects[key];
      }
    }
    r := Exhausted;
  }

  /** The retry reuses the reader without seeking, so a successful upload stores the whole
      body exactly when the failed attempts before it had consumed none of it. */
  lemma RetryStoresWholeBody(data: Bytes, env: Attempts)
    requires data != []
    ensures data[Min(|data|, Consumed(env))..] == data <==> Consumed(env) == 0
  {
  }

  /** Whatever the body, one failed attempt that read some of it and a retry that works leave
      the store with the rest, and no error. */
  method RetryStoresTail(key: Bytes, data: Bytes, read: nat) returns (r: Outcome, stored: Option<Bytes>)
    requires read <= |data|
    ensures r.Done? && stored == Some(data[read..])
  {
    var store := new Store();
    var body := new Body(data);
    var fails, works := Attempt(false, false, read, false), Attempt(false, true, 0, false);
    var env := [fails, works, works];
    assert env[1..][0].works;
    assert Consumed(env[1..]) == 0 && OutcomeOf(env[1..]) == Done;
    ghost var calls;
    r, calls := Upload(store, key, body, env);
    stored := if key in store.objects then Some(store.objects[key]) else None;
  }
}
