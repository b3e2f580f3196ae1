/** The token cache of the API client (nerd/client/batch/v1/client.go:33-38, 88-102) over a
    chain of providers or a single one, and its coherence over all histories of calls. */
module BatchClient {
  import opened Prelude
  import opened Jwt
  import opened Provider
  import opened ProviderChain
  import S = Session

  /* ---------- getJWT on values ---------- */

  datatype Source = NoSource | Bare(slot: Slot) | Chain(slots: seq<Slot>, curr: Option<nat>)

  datatype State = State(cred: Token, source: Source, file: S.File)

  /** One call: the reading of the clock, and what each provider finds if it is asked. */
  datatype Call = Call(now: int, xs: seq<Inputs>)

  predicate ValidState(s: State) {
    s.source.Chain? && s.source.curr.Some? ==> s.source.curr.value < |s.source.slots|
  }

  predicate Fits(s: State, call: Call) {
    match s.source
    case NoSource => true
    case Bare(_) => |call.xs| == 1
    case Chain(slots, _) => |call.xs| == |slots|
  }

  predicate SourceExpired(s: State, now: int)
    requires ValidState(s)
  {
    match s.source
    case NoSource => true
    case Bare(slot) => ExpiredAt(slot.basis, now)
    case Chain(slots, curr) => curr.None? || ExpiredAt(slots[curr.value].basis, now)
  }

  predicate Retrieves(s: State, now: int)
    requires ValidState(s)
  {
    s.cred == "" || SourceExpired(s, now)
  }

  function Retrieved(decode: Decoder, s: State, call: Call): (r: (State, Option<Token>))
    requires Fits(s, call)
  {
    match s.source
    case NoSource => (s, None)
    case Bare(slot) =>
      var o := SlotOutcome(decode, slot, s.file, call.xs[0]);
      (State(s.cred, Bare(slot.(basis := o.basis)), o.file), o.token)
    case Chain(slots, _) =>
      var o := ChainOutcome(decode, slots, s.file, call.xs, 0);
      (State(s.cred, Chain(o.slots, o.curr), o.file), o.token)
  }

  function GetJWTOutcome(decode: Decoder, s: State, call: Call): (State, Option<Token>)
    requires ValidState(s) && Fits(s, call)
  {
    if s.source.NoSource? then (s, None)
    else if Retrieves(s, call.now) then
      var r := Retrieved(decode, s, call);
      if r.1.None? then r else (r.0.(cred := r.1.value), r.1)
    else (s, Some(s.cred))
  }

  /** The remembered time has not come, or there is none. */
  predicate Unexpired(b: Basis, now: int) {
    b.alwaysValid || now < b.expiration
  }

  /** The chain holds a token, and the provider it came from remembers it as unexpired. */
  predicate Holds(s: State, now: int)
    requires ValidState(s) && s.source.Chain?
  {
    s.cred != "" && s.source.curr.Some? && Unexpired(s.source.slots[s.source.curr.value].basis, now)
  }

  /* ---------- the client as an object ---------- */

  datatype JWTProvider = NoProvider | BareProvider(p: Provider) | ChainProvider(c: ChainedProvider)

  class Client {
    const provider: JWTProvider
    const session: S.Session
    var cred: Token

    constructor (provider: JWTProvider, session: S.Session)
      ensures this.provider == provider && this.session == session && cred == ""
    {
      this.provider, this.session, cred := provider, session, "";
    }

    ghost function Parts(): set<object> {
      match provider
      case NoProvider => {this, session}
      case BareProvider(p) => {this, session, p}
      case ChainProvider(c) => {this, session, c} + (set p: Provider | p in c.providers)
    }

    ghost predicate Valid()
      reads Parts()
    {
      provider.ChainProvider? ==> provider.c.Valid()
    }

    ghost function View(): (s: State)
      requires Valid()
      reads Parts()
      ensures ValidState(s)
    {
      State(cred,
            match provider
            case NoProvider => NoSource
            case BareProvider(p) => Bare(Slot(p.kind, p.window, p.State()))
            case ChainProvider(c) => Chain(c.Slots(), c.curr),
            session.file)
    }

    method GetJWT(decode: Decoder, call: Call) returns (token: Option<Token>)
      requires Valid() && Fits(View(), call)
      modifies Parts()
      ensures Valid()
      ensures (View(), token) == GetJWTOutcome(decode, old(View()), call)
      ensures provider.ChainProvider? && old(Holds(View(), call.now)) ==>
        token == Some(old(cred)) && View() == old(View())
    {
      hide RetrieveOutcome, ChainOutcome;
      var renewed: Option<Token>;
      match provider {
        case NoProvider =>
          return None;
        case BareProvider(p) =>
          if cred != "" && !p.IsExpired(call.now) {
            return Some(cred);
          }
          renewed := p.Retrieve(decode, session, call.xs[0]);
        case ChainProvider(c) =>
          if cred != "" && !c.IsExpired(call.now) {
            return Some(cred);
          }
          renewed := c.Retrieve(decode, session, call.xs);
      }
      if renewed.None? {
        return None;
      }
      cred := renewed.value;
      token := Some(cred);
    }
  }

  /* ---------- histories ---------- */

  /** The client is asked for a token, or someone else writes the session file. */
  datatype Event = Asked(call: Call) | SessionWritten(file: S.File)

  predicate Possible(s: State, e: Event) {
    e.Asked? ==> Fits(s, e.call)
  }

  function Next(decode: Decoder, s: State, e: Event): State
    requires ValidState(s) && Possible(s, e)
  {
    match e
    case Asked(call) => GetJWTOutcome(decode, s, call).0
    case SessionWritten(file) => s.(file := file)
  }

  /** How long the chain is never changes, so whether a call fits can be said up front. */
  predicate Start(s: State) {
    s.cred == "" && (s.source.Chain? ==> s.source.curr.None?)
  }

  predicate AllPossible(s: State, events: seq<Event>) {
    forall i :: 0 <= i < |events| ==> Possible(s, events[i])
  }

  predicate SameShape(s: State, t: State) {
    match s.source
    case NoSource => t.source.NoSource?
    case Bare(_) => t.source.Bare?
    case Chain(slots, _) => t.source.Chain? && |t.source.slots| == |slots|
  }

  lemma NextKeepsShape(decode: Decoder, s: State, e: Event)
    requires ValidState(s) && Possible(s, e)
    ensures ValidState(Next(decode, s, e)) && SameShape(s, Next(decode, s, e))
  {
    if s.source.Chain? && e.Asked? {
      FirstThatGivesWins(decode, s.source.slots, s.file, e.call.xs);
    }
    hide SlotOutcome, ChainOutcome, Gives, ComesFrom, Coherent, IsValid;
  }

  /** The state after a history of events. */
  function After(decode: Decoder, s: State, events: seq<Event>): (t: State)
    requires ValidState(s) && AllPossible(s, events)
    ensures ValidState(t) && SameShape(s, t)
    decreases |events|
  {
    if events == [] then s
    else
      var before := After(decode, s, events[..|events| - 1]);
      var last := events[|events| - 1];
      NextKeepsShape(decode, before, last);
      Next(decode, before, last)
  }

  /** The provider and the token of the last retrieval, if that retrieval gave one. */
  function LastIssue(decode: Decoder, s: State, events: seq<Event>): Option<(nat, Token)>
    requires ValidState(s) && AllPossible(s, events) && s.source.Chain?
    decreases |events|
  {
    if events == [] then None
    else
      var init, last := events[..|events| - 1], events[|events| - 1];
      var before := After(decode, s, init);
      if last.Asked? && Retrieves(before, last.call.now) then
        var o := ChainOutcome(decode, before.source.slots, before.file, last.call.xs, 0);
        if o.curr.Some? && o.token.Some? then Some((o.curr.value, o.token.value)) else None
      else LastIssue(decode, s, init)
  }

  /* ---------- coherence of the chain's cache ---------- */

  ghost predicate CacheMatches(decode: Decoder, s: State, issue: Option<(nat, Token)>)
    requires ValidState(s) && s.source.Chain?
  {
    match issue
    case None => s.source.curr.None?
    case Some((k, token)) =>
      && s.source.curr == Some(k) && s.cred == token
      && Coherent(decode, s.source.slots[k].window, s.source.slots[k].basis, token)
  }

  /** After any history the cached token, the cached provider and the expiry it remembers all
      come from the last retrieval, and there is no cached provider if that one failed. */
  lemma {:induction false} CacheIsLastIssue(decode: Decoder, s: State, events: seq<Event>)
    requires ValidState(s) && Start(s) && s.source.Chain? && AllPossible(s, events)
    ensures CacheMatches(decode, After(decode, s, events), LastIssue(decode, s, events))
    decreases |events|
  {
    if events != [] {
      var init, last := events[..|events| - 1], events[|events| - 1];
      CacheIsLastIssue(decode, s, init);
      var before := After(decode, s, init);
      if last.Asked? {
        FirstThatGivesWins(decode, before.source.slots, before.file, last.call.xs);
      }
      hide ChainOutcome, Gives, ComesFrom, Coherent, IsValid;
    }
  }

  /** The token was retrieved in this very call, by the first provider to give one, and is
      signed and not past its expiration then. */
  ghost predicate JustRetrieved(decode: Decoder, s: State, call: Call, token: Token)
    requires s.source.Chain? && Fits(s, call)
  {
    exists k: nat :: k < |s.source.slots| && Gives(decode, s.source.slots, s.file, call.xs, k)
      && (forall j :: 0 <= j < k ==> !Gives(decode, s.source.slots, s.file, call.xs, j))
      && IsValid(decode, token, call.xs[k].validClock)
      && ComesFrom(s.source.slots[k].kind, FileBefore(decode, s.source.slots, s.file, call.xs, k), call.xs[k], token)
  }

  /** The token is the one issued last, by the current provider, and has not expired yet:
      by the standard's own rule, and by the provider's window sooner still. */
  ghost predicate StillGood(decode: Decoder, s: State, issue: Option<(nat, Token)>, now: int, token: Token)
    requires s.source.Chain?
  {
    && issue.Some? && s.source.curr == Some(issue.value.0) && issue.value.1 == token
    && issue.value.0 < |s.source.slots|
    && decode(token).Some?
    && var c := decode(token).value;
       var window := s.source.slots[issue.value.0].window;
       && (ExpiresAt(c) != 0 ==> Permitted(c, now) && Permitted(c, now + (if window > 0 then window else 0)))
       && NotPast(c, now)
  }

  /** Whatever happened before, every token getJWT returns is one or the other. */
  lemma ServedTokenIsSound(decode: Decoder, s: State, events: seq<Event>, call: Call)
    requires ValidState(s) && Start(s) && s.source.Chain?
    requires AllPossible(s, events) && Fits(s, call)
    ensures
      var t := After(decode, s, events);
      var token := GetJWTOutcome(decode, t, call).1;
      token.Some? ==>
        if Retrieves(t, call.now) then JustRetrieved(decode, t, call, token.value)
        else StillGood(decode, t, LastIssue(decode, s, events), call.now, token.value)
  {
    CacheIsLastIssue(decode, s, events);
    var t := After(decode, s, events);
    FirstThatGivesWins(decode, t.source.slots, t.file, call.xs);
    hide After, LastIssue, ChainOutcome, Gives, ComesFrom, IsValid;
  }

  /** After a failed retrieval nothing but a new retrieval yields a token: the stale one, still
      in the cache, is not served, whatever the session file is by then. */
  lemma StaleTokenIsNotServed(decode: Decoder, s: State, call: Call, file: S.File, next: Call)
    requires ValidState(s) && s.source.Chain? && Fits(s, call) && Fits(s, next)
    requires Retrieves(s, call.now) && GetJWTOutcome(decode, s, call).1.None?
    ensures
      var t := GetJWTOutcome(decode, s, call).0.(file := file);
      && t.cred == s.cred && ValidState(t) && Fits(t, next)
      && (GetJWTOutcome(decode, t, next).1.Some? ==>
            JustRetrieved(decode, t, next, GetJWTOutcome(decode, t, next).1.value))
  {
    FirstThatGivesWins(decode, s.source.slots, s.file, call.xs);
    var t := GetJWTOutcome(decode, s, call).0.(file := file);
    FirstThatGivesWins(decode, t.source.slots, t.file, next.xs);
    hide ChainOutcome, Gives, ComesFrom, IsValid;
  }

  /* ---------- when nobody is asked ---------- */

  /** An unexpired token is served as it is, and nothing changes, whatever the providers, the
      server and the disk would have answered. */
  lemma UnexpiredTokenIsServed(decode: Decoder, s: State, call: Call)
    requires ValidState(s) && s.source.Chain? && Fits(s, call) && Holds(s, call.now)
    ensures GetJWTOutcome(decode, s, call) == (s, Some(s.cred))
  {
  }

  /** The same for a single provider. */
  lemma UnexpiredTokenIsServedWithoutChain(decode: Decoder, s: State, call: Call)
    requires s.source.Bare? && Fits(s, call) && s.cred != "" && Unexpired(s.source.slot.basis, call.now)
    ensures GetJWTOutcome(decode, s, call) == (s, Some(s.cred))
  {
  }

  /** No variable, no session, no answer. */
  function Silence(n: nat): seq<Inputs> {
    seq(n, _ => Inputs("", "", true, None, S.NoFault, 0, 0))
  }

  lemma SilenceGivesNothing(decode: Decoder, slots: seq<Slot>, file: S.File)
    ensures ChainOutcome(decode, slots, file, Silence(|slots|), 0).token.None?
  {
    FirstThatGivesWins(decode, slots, file, Silence(|slots|));
    hide ChainOutcome, FileBefore, ComesFrom, Coherent;
  }

  /** Through a chain the cached token is served come what may exactly if it is unexpired;
      otherwise the providers are asked, and the token lives or dies with their answers. */
  lemma ServedWithoutAskingIff(decode: Decoder, s: State, now: int)
    requires ValidState(s) && s.source.Chain?
    ensures Holds(s, now) <==>
      forall call :: Fits(s, call) && call.now == now ==>
        GetJWTOutcome(decode, s, call) == (s, Some(s.cred))
  {
    if Holds(s, now) {
      forall call | Fits(s, call) && call.now == now ensures GetJWTOutcome(decode, s, call) == (s, Some(s.cred)) {
        UnexpiredTokenIsServed(decode, s, call);
      }
    } else {
      var call := Call(now, Silence(|s.source.slots|));
      SilenceGivesNothing(decode, s.source.slots, s.file);
      assert Fits(s, call) && GetJWTOutcome(decode, s, call).1.None?;
    }
  }

  /** When a token's own expiration, less the provider's window, has not come. */
  predicate Fresh(c: Claims, window: int, now: int) {
    ExpiresAt(c) == 0 || now < ExpiresAt(c) * SECOND - (if window > 0 then window else 0)
  }

  /** After any history the token issued last is served again, without asking anyone, at every
      reading of the clock before its expiration less the window. */
  lemma LastIssueIsServed(decode: Decoder, s: State, events: seq<Event>, call: Call)
    requires ValidState(s) && Start(s) && s.source.Chain?
    requires AllPossible(s, events) && Fits(s, call)
    requires LastIssue(decode, s, events).Some? && LastIssue(decode, s, events).value.1 != ""
    ensures
      var (k, token) := LastIssue(decode, s, events).value;
      var t := After(decode, s, events);
      && decode(token).Some? && k < |t.source.slots|
      && (Fresh(decode(token).value, t.source.slots[k].window, call.now) ==>
            GetJWTOutcome(decode, t, call) == (t, Some(token)))
  {
    CacheIsLastIssue(decode, s, events);
    var t := After(decode, s, events);
    hide After, LastIssue, RetrieveOutcome, ChainOutcome;
    if Holds(t, call.now) {
      UnexpiredTokenIsServed(decode, t, call);
    }
  }

  /* ---------- a single provider without a chain ---------- */

  predicate Lost(decode: Decoder, s: State, call: Call)
    requires s.source.Bare? && Fits(s, call)
  {
    WriteLost(s.source.slot.kind, decode, s.source.slot.window, s.file, call.xs[0])
  }

  predicate InOrder(call: Call)
    requires |call.xs| == 1
  {
    call.now <= call.xs[0].expiryClock <= call.xs[0].validClock
  }

  /** Without a chain, a failed retrieval is followed by serving the token that had expired
      exactly when what failed was writing the session, until the lost token expires too. */
  lemma StaleTokenIsServedWithoutChain(decode: Decoder, s: State, call: Call, file: S.File, next: Call)
    requires s.source.Bare? && Fits(s, call) && Fits(s, next) && InOrder(call)
    requires s.cred != "" && Retrieves(s, call.now) && GetJWTOutcome(decode, s, call).1.None?
    requires call.xs[0].validClock <= next.now
    ensures
      var t := GetJWTOutcome(decode, s, call).0.(file := file);
      && ValidState(t) && Fits(t, next)
      && (!Retrieves(t, next.now) <==>
            && Lost(decode, s, call)
            && !ExpiredAt(BasisOf(decode(call.xs[0].reply.value).value, s.source.slot.window), next.now))
      && (!Retrieves(t, next.now) ==> GetJWTOutcome(decode, t, next).1 == Some(s.cred))
  {
    var slot := s.source.slot;
    FailedRetrieveStaysExpiredUnless(slot.kind, decode, slot.window, slot.basis, s.file, call.xs[0], next.now);
    hide RetrieveOutcome, WriteLost, BasisOf;
  }

  /** The cached token goes with the expiry remembered, or that expiry has passed for good. */
  ghost predicate BareCache(decode: Decoder, s: State, clock: int)
    requires s.source.Bare?
  {
    || s.cred == ""
    || Coherent(decode, s.source.slot.window, s.source.slot.basis, s.cred)
    || ExpiredAt(s.source.slot.basis, clock)
  }

  lemma BareCallKeepsCache(decode: Decoder, s: State, call: Call, clock: int)
    requires s.source.Bare? && Fits(s, call) && InOrder(call) && clock <= call.now
    requires BareCache(decode, s, clock) && !Lost(decode, s, call)
    ensures
      var t := GetJWTOutcome(decode, s, call).0;
      t.source.Bare? && BareCache(decode, t, call.xs[0].validClock)
    ensures
      var token := GetJWTOutcome(decode, s, call).1;
      token.Some? ==>
        if Retrieves(s, call.now) then IsValid(decode, token.value, call.xs[0].validClock)
        else decode(token.value).Some? && NotPast(decode(token.value).value, call.now)
  {
    var slot := s.source.slot;
    var x := call.xs[0];
    RetrievedTokenIsSound(slot.kind, decode, slot.window, slot.basis, s.file, x);
    if Retrieves(s, call.now) && SlotOutcome(decode, slot, s.file, x).token.None? && s.cred != "" {
      FailedRetrieveStaysExpiredUnless(slot.kind, decode, slot.window, slot.basis, s.file, x, x.validClock);
    }
    hide RetrieveOutcome, WriteLost, ComesFrom;
  }

  /** Each call begins where the clock was left, and no retrieval loses a token. */
  predicate Undisturbed(decode: Decoder, s: State, events: seq<Event>, clock: int)
    requires ValidState(s) && s.source.Bare?
    decreases |events|
  {
    events == [] ||
    (&& Possible(s, events[0])
     && match events[0]
        case SessionWritten(_) => Undisturbed(decode, Next(decode, s, events[0]), events[1..], clock)
        case Asked(call) =>
          && InOrder(call) && clock <= call.now && !Lost(decode, s, call)
          && Undisturbed(decode, Next(decode, s, events[0]), events[1..], call.xs[0].validClock))
  }

  /** Every token returned along the way was valid at the clock reading it was checked with. */
  ghost predicate AllServedValid(decode: Decoder, s: State, events: seq<Event>)
    requires ValidState(s) && s.source.Bare?
    decreases |events|
  {
    events == [] ||
    (&& Possible(s, events[0])
     && AllServedValid(decode, Next(decode, s, events[0]), events[1..])
     && (events[0].Asked? ==>
          var call := events[0].call;
          var token := GetJWTOutcome(decode, s, call).1;
          token.Some? ==>
            IsValid(decode, token.value, if Retrieves(s, call.now) then call.xs[0].validClock else call.now)))
  }

  lemma {:induction false} BareServesValidTokens(decode: Decoder, s: State, events: seq<Event>, clock: int)
    requires ValidState(s) && s.source.Bare? && BareCache(decode, s, clock)
    requires Undisturbed(decode, s, events, clock)
    ensures AllServedValid(decode, s, events)
    decreases |events|
  {
    if events != [] {
      var later := clock;
      if events[0].Asked? {
        BareCallKeepsCache(decode, s, events[0].call, clock);
        later := events[0].call.xs[0].validClock;
      }
      hide SlotOutcome, Lost, IsValid;
      BareServesValidTokens(decode, Next(decode, s, events[0]), events[1..], later);
    }
  }

  ghost predicate ServesExpired(decode: Decoder, s: State, first: Call, second: Call, third: Call) {
    && Start(s) && s.source.Bare? && Fits(s, first) && Fits(s, second) && Fits(s, third)
    && (var (s1, t1) := GetJWTOutcome(decode, s, first);
        var (s2, t2) := GetJWTOutcome(decode, s1, second);
        var (_, t3) := GetJWTOutcome(decode, s2, third);
        t1.Some? && t2.None? && t3 == t1 && !IsValid(decode, t3.value, third.now))
  }

  /** A run in which it goes wrong: "old" is served an hour after it expired, because "new"
      was fetched in the meantime but the disk was full. */
  lemma ExpiredTokenServedWithoutChain()
      returns (decode: Decoder, s: State, first: Call, second: Call, third: Call)
    ensures ServesExpired(decode, s, first, second, third)
  {
    decode := (t: Token) =>
      if t == "old" then Some(Claims(Some(1000))) else if t == "new" then Some(Claims(Some(9000))) else None;
    var file := Some(S.Snapshot(S.OAuth("", "", 0, "", ""), S.JWT("", ""), S.Project("", "")));
    s := State("", Bare(Slot(AuthAPI, 20, Basis(0, false))), file);
    var x1 := Inputs("", "", false, Some("old"), S.NoFault, 0, 0);
    var x2 := Inputs("", "", false, Some("new"), S.EncodeFails, 2000 * SECOND, 2000 * SECOND);
    first, second, third := Call(0, [x1]), Call(2000 * SECOND, [x2]), Call(4600 * SECOND, [x2]);
    var (s1, t1) := GetJWTOutcome(decode, s, first);
    assert t1 == Some("old") && s1.source.slot.basis == Basis(1000 * SECOND - 20, false);
    var (s2, t2) := GetJWTOutcome(decode, s1, second);
    assert t2 == None && s2.source.slot.basis == Basis(9000 * SECOND - 20, false);
  }
}
