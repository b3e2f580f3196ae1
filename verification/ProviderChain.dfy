/** Several providers tried in order (nerd/client/batch/v1/jwt_provider.go:33-73). */
module ProviderChain {
  import opened Prelude
  import opened Jwt
  import opened Provider
  import S = Session

  datatype Slot = Slot(kind: Kind, window: int, basis: Basis)

  datatype Chained = Chained(slots: seq<Slot>, file: S.File, curr: Option<nat>, token: Option<Token>)

  function SlotOutcome(decode: Decoder, slot: Slot, file: S.File, x: Inputs): Outcome {
    RetrieveOutcome(slot.kind, decode, slot.window, slot.basis, file, x)
  }

  /** What trying the providers from position `i` on comes to. */
  function ChainOutcome(decode: Decoder, slots: seq<Slot>, file: S.File, xs: seq<Inputs>, i: nat): Chained
    requires i <= |slots| == |xs|
    decreases |slots| - i
  {
    if i == |slots| then Chained(slots, file, None, None)
    else
      var r := SlotOutcome(decode, slots[i], file, xs[i]);
      var after := slots[i := slots[i].(basis := r.basis)];
      if r.token.Some? then Chained(after, r.file, Some(i), r.token)
      else ChainOutcome(decode, after, r.file, xs, i + 1)
  }

  class ChainedProvider {
    const providers: seq<Provider>
    var curr: Option<nat>      // position of the cached provider

    ghost predicate Valid()
      reads this
    {
      && (forall i, j :: 0 <= i < j < |providers| ==> providers[i] != providers[j])
      && (curr.Some? ==> curr.value < |providers|)
    }

    constructor (providers: seq<Provider>)
      requires forall i, j :: 0 <= i < j < |providers| ==> providers[i] != providers[j]
      ensures Valid() && this.providers == providers && curr == None
    {
      this.providers, curr := providers, None;
    }

    ghost function Slots(): (slots: seq<Slot>)
      reads providers
      ensures |slots| == |providers|
    {
      seq(|providers|, i requires 0 <= i < |providers| reads providers =>
        Slot(providers[i].kind, providers[i].window, providers[i].State()))
    }

    predicate IsExpired(now: int)
      requires Valid()
      reads this, providers
      ensures IsExpired(now) <==> curr.None? || ExpiredAt(Slots()[curr.value].basis, now)
    {
      if curr.Some? then providers[curr.value].IsExpired(now) else true
    }

    method Retrieve(decode: Decoder, session: S.Session, xs: seq<Inputs>) returns (token: Option<Token>)
      requires Valid() && |xs| == |providers|
      modifies this, providers, session
      ensures Valid()
      ensures Chained(Slots(), session.file, curr, token)
        == ChainOutcome(decode, old(Slots()), old(session.file), xs, 0)
    {
      hide RetrieveOutcome;
      var i := 0;
      while i < |providers|
        invariant 0 <= i <= |providers| && Valid() && curr == old(curr)
        invariant ChainOutcome(decode, Slots(), session.file, xs, i)
          == ChainOutcome(decode, old(Slots()), old(session.file), xs, 0)
      {
        ghost var before := Slots();
        ghost var r := SlotOutcome(decode, before[i], session.file, xs[i]);
        var p := providers[i];
        token := p.Retrieve(decode, session, xs[i]);
        assert Slots() == before[i := before[i].(basis := r.basis)];
        if token.Some? {
          curr := Some(i);
          return;
        }
        i := i + 1;
      }
      curr := None;
      token := None;
    }
  }

  /* ---------- what the chain promises ---------- */

  /** The session file once the providers before position `k` have been tried. */
  function FileBefore(decode: Decoder, slots: seq<Slot>, file: S.File, xs: seq<Inputs>, k: nat): S.File
    requires k <= |slots| == |xs|
  {
    if k == 0 then file
    else SlotOutcome(decode, slots[k - 1], FileBefore(decode, slots, file, xs, k - 1), xs[k - 1]).file
  }

  predicate Gives(decode: Decoder, slots: seq<Slot>, file: S.File, xs: seq<Inputs>, k: nat)
    requires k < |slots| == |xs|
  {
    SlotOutcome(decode, slots[k], FileBefore(decode, slots, file, xs, k), xs[k]).token.Some?
  }

  lemma {:induction false} OutcomeFrom(decode: Decoder, slots: seq<Slot>, now: seq<Slot>, file: S.File,
                                       xs: seq<Inputs>, i: nat)
    requires i <= |slots| == |xs| == |now| && now[i..] == slots[i..]
    ensures
      var r := ChainOutcome(decode, now, FileBefore(decode, slots, file, xs, i), xs, i);
      && |r.slots| == |slots| && (r.curr.Some? <==> r.token.Some?)
      && (forall k :: i <= k < |slots| && (r.curr.Some? ==> k < r.curr.value) ==>
            !Gives(decode, slots, file, xs, k))
      && (r.curr.Some? ==>
            var k := r.curr.value;
            && i <= k < |slots| && Gives(decode, slots, file, xs, k)
            && var o := SlotOutcome(decode, slots[k], FileBefore(decode, slots, file, xs, k), xs[k]);
               r.token == o.token && r.slots[k] == slots[k].(basis := o.basis) && r.file == o.file)
    decreases |slots| - i
  {
    hide SlotOutcome;
    if i < |slots| {
      assert now[i] == slots[i] by { assert now[i] == now[i..][0] && slots[i] == slots[i..][0]; }
      var o := SlotOutcome(decode, slots[i], FileBefore(decode, slots, file, xs, i), xs[i]);
      if o.token.None? {
        var after := now[i := now[i].(basis := o.basis)];
        assert after[i + 1..] == slots[i + 1..] by {
          assert after[i + 1..] == now[i..][1..] && slots[i + 1..] == slots[i..][1..];
        }
        OutcomeFrom(decode, slots, after, file, xs, i + 1);
      }
    }
  }

  /** The chain returns what the first provider that gives a token gives, and makes that
      provider the current one; it fails, and has no current one, when none gives any. The
      current provider remembers the expiry of just that token. */
  lemma FirstThatGivesWins(decode: Decoder, slots: seq<Slot>, file: S.File, xs: seq<Inputs>)
    requires |slots| == |xs|
    ensures
      var r := ChainOutcome(decode, slots, file, xs, 0);
      && |r.slots| == |slots| && (r.curr.Some? <==> r.token.Some?)
      && (r.curr.None? ==> forall k :: 0 <= k < |slots| ==> !Gives(decode, slots, file, xs, k))
      && (r.curr.Some? ==>
            var k := r.curr.value;
            && k < |slots| && Gives(decode, slots, file, xs, k)
            && (forall j :: 0 <= j < k ==> !Gives(decode, slots, file, xs, j))
            && IsValid(decode, r.token.value, xs[k].validClock)
            && Coherent(decode, slots[k].window, r.slots[k].basis, r.token.value)
            && r.slots[k].window == slots[k].window
            && ComesFrom(slots[k].kind, FileBefore(decode, slots, file, xs, k), xs[k], r.token.value))
  {
    OutcomeFrom(decode, slots, slots, file, xs, 0);
    var r := ChainOutcome(decode, slots, file, xs, 0);
    if r.curr.Some? {
      var k := r.curr.value;
      RetrievedTokenIsSound(slots[k].kind, decode, slots[k].window, slots[k].basis,
                            FileBefore(decode, slots, file, xs, k), xs[k]);
      hide RetrieveOutcome, ChainOutcome, ComesFrom, Coherent, IsValid;
    }
  }

  /** How far the chain gets: up to the provider that gives a token, or past the last. */
  function Tried(r: Chained): nat {
    if r.curr.Some? then r.curr.value + 1 else |r.slots|
  }

  /** A provider that was asked remembers what its own retrieval left it with. */
  function Remembering(decode: Decoder, slots: seq<Slot>, file: S.File, xs: seq<Inputs>, j: nat): Slot
    requires j < |slots| == |xs|
  {
    slots[j].(basis := SlotOutcome(decode, slots[j], FileBefore(decode, slots, file, xs, j), xs[j]).basis)
  }

  lemma {:induction false} TriedFrom(decode: Decoder, slots: seq<Slot>, now: seq<Slot>, file: S.File,
                                     xs: seq<Inputs>, i: nat)
    requires i <= |slots| == |xs| == |now| && now[i..] == slots[i..]
    ensures
      var r := ChainOutcome(decode, now, FileBefore(decode, slots, file, xs, i), xs, i);
      && |r.slots| == |slots| && i <= Tried(r) <= |slots|
      && r.file == FileBefore(decode, slots, file, xs, Tried(r))
      && (forall j :: 0 <= j < i ==> r.slots[j] == now[j])
      && (forall j :: i <= j < Tried(r) ==> r.slots[j] == Remembering(decode, slots, file, xs, j))
      && (forall j :: Tried(r) <= j < |slots| ==> r.slots[j] == slots[j])
    decreases |slots| - i
  {
    hide SlotOutcome;
    if i < |slots| {
      assert forall j :: i <= j < |slots| ==> now[j] == now[i..][j - i] && slots[j] == slots[i..][j - i];
      var o := SlotOutcome(decode, slots[i], FileBefore(decode, slots, file, xs, i), xs[i]);
      if o.token.None? {
        var after := now[i := now[i].(basis := o.basis)];
        assert after[i + 1..] == slots[i + 1..];
        TriedFrom(decode, slots, after, file, xs, i + 1);
      }
    }
  }

  /** The providers up to the one that gives a token are asked in order, each finding the session
      as the one before left it, and each remembers the expiry its own retrieval found; the
      providers after it are not touched. */
  lemma OthersAreNotAsked(decode: Decoder, slots: seq<Slot>, file: S.File, xs: seq<Inputs>)
    requires |slots| == |xs|
    ensures
      var r := ChainOutcome(decode, slots, file, xs, 0);
      && |r.slots| == |slots| && Tried(r) <= |slots| && r.file == FileBefore(decode, slots, file, xs, Tried(r))
      && forall j :: 0 <= j < |slots| ==>
           r.slots[j] == if j < Tried(r) then Remembering(decode, slots, file, xs, j) else slots[j]
  {
    TriedFrom(decode, slots, slots, file, xs, 0);
    hide ChainOutcome, SlotOutcome, FileBefore;
  }
}
