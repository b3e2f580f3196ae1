/** The three token providers (nerd/jwt/provider.go, config_provider.go, env_provider.go,
    authapi_provider.go). Each remembers when the token it returned expires. */
module Provider {
  import opened Prelude
  import opened Jwt
  import S = Session

  datatype Kind = Config | Env | AuthAPI

  /** The fields of ProviderBasis that change; times in nanoseconds. */
  datatype Basis = Basis(expiration: int, alwaysValid: bool)

  /** All that one call of Retrieve finds: environment variables, server, clock and disk. */
  datatype Inputs = Inputs(
    envToken: Token,
    envSecret: string,
    readFails: bool,           // reading the session
    reply: Option<Token>,      // from GetJWT or RefreshJWT
    writeFault: S.Fault,       // writing the session
    expiryClock: int,          // read by IsExpired
    validClock: int)           // read by isValid

  predicate ExpiredAt(b: Basis, now: int) {
    !b.alwaysValid && b.expiration <= now
  }

  /** The basis that goes with a token. */
  function BasisOf(c: Claims, window: int): Basis {
    Basis(ExpiresAt(c) * SECOND - (if window > 0 then window else 0), ExpiresAt(c) == 0)
  }

  ghost predicate Coherent(decode: Decoder, window: int, b: Basis, token: Token) {
    decode(token).Some? && b == BasisOf(decode(token).value, window)
  }

  /* ---------- what Retrieve does, on values ---------- */

  datatype Outcome = Outcome(basis: Basis, file: S.File, token: Option<Token>)

  function Checked(decode: Decoder, b: Basis, file: S.File, token: Token, now: int): Outcome {
    Outcome(b, file, if IsValid(decode, token, now) then Some(token) else None)
  }

  function Stored(file: S.File, token: Token, secret: string, fault: S.Fault): S.File {
    S.FileAfter(file, S.WriteJWT(S.JWT(token, secret)), fault)
  }

  function ConfigOutcome(decode: Decoder, window: int, b: Basis, file: S.File, x: Inputs): Outcome {
    if x.readFails || file.None? || file.value.jwt.token == "" then Outcome(b, file, None)
    else
      var jwt := file.value.jwt;
      if decode(jwt.token).None? then Outcome(b, file, None)
      else
        var b1 := BasisOf(decode(jwt.token).value, window);
        if jwt.refreshToken == "" || !ExpiredAt(b1, x.expiryClock) then
          Checked(decode, b1, file, jwt.token, x.validClock)
        else if x.reply.None? || decode(x.reply.value).None? then Outcome(b1, file, None)
        else
          var b2 := BasisOf(decode(x.reply.value).value, window);
          var after := Stored(file, x.reply.value, jwt.refreshToken, x.writeFault);
          if S.Succeeds(file, x.writeFault) then Checked(decode, b2, after, x.reply.value, x.validClock)
          else Outcome(b2, after, None)
  }

  function EnvOutcome(decode: Decoder, window: int, b: Basis, file: S.File, x: Inputs): Outcome {
    if x.envToken == "" || decode(x.envToken).None? then Outcome(b, file, None)
    else
      var b1 := BasisOf(decode(x.envToken).value, window);
      if x.envSecret == "" || !ExpiredAt(b1, x.expiryClock) then
        Checked(decode, b1, file, x.envToken, x.validClock)
      else if x.readFails || file.None? || x.reply.None? || decode(x.reply.value).None? then
        Outcome(b1, file, None)
      else
        Checked(decode, BasisOf(decode(x.reply.value).value, window), file, x.reply.value, x.validClock)
  }

  function AuthOutcome(decode: Decoder, window: int, b: Basis, file: S.File, x: Inputs): Outcome {
    if x.reply.None? || decode(x.reply.value).None? then Outcome(b, file, None)
    else
      var b1 := BasisOf(decode(x.reply.value).value, window);
      if !IsValid(decode, x.reply.value, x.validClock) then Outcome(b1, file, None)
      else
        var after := Stored(file, x.reply.value, "", x.writeFault);
        Outcome(b1, after, if S.Succeeds(file, x.writeFault) then Some(x.reply.value) else None)
  }

  function RetrieveOutcome(kind: Kind, decode: Decoder, window: int, b: Basis, file: S.File, x: Inputs): Outcome {
    match kind
    case Config => ConfigOutcome(decode, window, b, file, x)
    case Env => EnvOutcome(decode, window, b, file, x)
    case AuthAPI => AuthOutcome(decode, window, b, file, x)
  }

  /* ---------- the providers as objects ---------- */

  class Provider {
    const kind: Kind
    const window: int
    var expiration: int
    var alwaysValid: bool

    constructor (kind: Kind, window: int, zeroTime: int)
      ensures this.kind == kind && this.window == window && State() == Basis(zeroTime, false)
    {
      this.kind, this.window, expiration, alwaysValid := kind, window, zeroTime, false;
    }

    ghost function State(): Basis
      reads this
    {
      Basis(expiration, alwaysValid)
    }

    predicate IsExpired(now: int)
      reads this
      ensures IsExpired(now) <==> ExpiredAt(State(), now)
    {
      !alwaysValid && !(now < expiration)
    }

    method SetExpiration(time: int)
      modifies this
      ensures alwaysValid == old(alwaysValid)
      ensures expiration == time - (if window > 0 then window else 0)
    {
      expiration := time;
      if window > 0 {
        expiration := expiration - window;
      }
    }

    method SetExpirationFromJWT(decode: Decoder, token: Token) returns (ok: bool)
      modifies this
      ensures ok <==> decode(token).Some?
      ensures State() == if ok then BasisOf(decode(token).value, window) else old(State())
    {
      var claims := decode(token);
      if claims.None? {
        return false;
      }
      alwaysValid := ExpiresAt(claims.value) == 0;
      SetExpiration(ExpiresAt(claims.value) * SECOND);
      ok := true;
    }

    method RetrieveFromConfig(decode: Decoder, session: S.Session, x: Inputs) returns (token: Option<Token>)
      modifies this, session
      ensures Outcome(State(), session.file, token)
        == ConfigOutcome(decode, window, old(State()), old(session.file), x)
    {
      var ss := session.Read(if x.readFails then S.ReadFails else S.NoFault);
      if ss.None? {
        return None;
      }
      var jwt := ss.value.jwt.token;
      if jwt == "" {
        return None;
      }
      var ok := SetExpirationFromJWT(decode, jwt);
      if !ok {
        return None;
      }
      if ss.value.jwt.refreshToken != "" && IsExpired(x.expiryClock) {
        var renewed := RefreshIntoConfig(decode, session, ss.value.jwt.refreshToken, x);
        if renewed.None? {
          return None;
        }
        jwt := renewed.value;
      }
      token := if IsValid(decode, jwt, x.validClock) then Some(jwt) else None;
    }

    method RefreshIntoConfig(decode: Decoder, session: S.Session, secret: string, x: Inputs)
        returns (token: Option<Token>)
      modifies this, session
      ensures x.reply.None? || decode(x.reply.value).None? ==>
        token == None && State() == old(State()) && session.file == old(session.file)
      ensures x.reply.Some? && decode(x.reply.value).Some? ==>
        && State() == BasisOf(decode(x.reply.value).value, window)
        && session.file == Stored(old(session.file), x.reply.value, secret, x.writeFault)
        && token == if S.Succeeds(old(session.file), x.writeFault) then x.reply else None
    {
      if x.reply.None? {
        return None;
      }
      var ok := SetExpirationFromJWT(decode, x.reply.value);
      if !ok {
        return None;
      }
      ok := session.StoreJWT(x.reply.value, secret, x.writeFault);
      token := if ok then x.reply else None;
    }

    method RetrieveFromEnv(decode: Decoder, session: S.Session, x: Inputs) returns (token: Option<Token>)
      modifies this
      ensures Outcome(State(), session.file, token)
        == EnvOutcome(decode, window, old(State()), session.file, x)
    {
      var jwt := x.envToken;
      if jwt == "" {
        return None;
      }
      var ok := SetExpirationFromJWT(decode, jwt);
      if !ok {
        return None;
      }
      if x.envSecret != "" && IsExpired(x.expiryClock) {
        var ss := session.Read(if x.readFails then S.ReadFails else S.NoFault);
        if ss.None? || x.reply.None? {
          return None;
        }
        ok := SetExpirationFromJWT(decode, x.reply.value);
        if !ok {
          return None;
        }
        jwt := x.reply.value;
      }
      token := if IsValid(decode, jwt, x.validClock) then Some(jwt) else None;
    }

    method RetrieveFromAuthAPI(decode: Decoder, session: S.Session, x: Inputs) returns (token: Option<Token>)
      modifies this, session
      ensures Outcome(State(), session.file, token)
        == AuthOutcome(decode, window, old(State()), old(session.file), x)
    {
      if x.reply.None? {
        return None;
      }
      var ok := SetExpirationFromJWT(decode, x.reply.value);
      if !ok || !IsValid(decode, x.reply.value, x.validClock) {
        return None;
      }
      ok := session.StoreJWT(x.reply.value, "", x.writeFault);
      token := if ok then x.reply else None;
    }

    method Retrieve(decode: Decoder, session: S.Session, x: Inputs) returns (token: Option<Token>)
      modifies this, session
      ensures Outcome(State(), session.file, token)
        == RetrieveOutcome(kind, decode, window, old(State()), old(session.file), x)
    {
      match kind
      case Config => token := RetrieveFromConfig(decode, session, x);
      case Env => token := RetrieveFromEnv(decode, session, x);
      case AuthAPI => token := RetrieveFromAuthAPI(decode, session, x);
    }
  }

  /* ---------- what a retrieval promises ---------- */

  /** Where a provider may take a token from. */
  predicate ComesFrom(kind: Kind, file: S.File, x: Inputs, token: Token) {
    || x.reply == Some(token)
    || (kind.Config? && file.Some? && file.value.jwt.token == token)
    || (kind.Env? && x.envToken == token)
  }

  /** A token that is returned is signed and not past its expiration, its expiry is the one
      remembered, and the session file names it (unless it came from the environment). */
  lemma RetrievedTokenIsSound(kind: Kind, decode: Decoder, window: int, b: Basis, file: S.File, x: Inputs)
    ensures
      var r := RetrieveOutcome(kind, decode, window, b, file, x);
      r.token.Some? ==>
        && IsValid(decode, r.token.value, x.validClock)
        && Coherent(decode, window, r.basis, r.token.value)
        && ComesFrom(kind, file, x, r.token.value)
        && (!kind.Env? ==> r.file.Some? && r.file.value.jwt.token == r.token.value)
  {
  }

  /** With a token's own expiry remembered it counts as expired from that time on, less the
      window if that is positive; a token without an expiration, or with 0, never does. */
  lemma ExpiresOnTime(c: Claims, window: int, now: int)
    ensures ExpiredAt(BasisOf(c, window), now) <==>
      && c.exp.Some? && c.exp.value != 0
      && (if window > 0 then c.exp.value * SECOND - window <= now else c.exp.value * SECOND <= now)
  {
  }

  /** The token a provider has of its own, and the secret to refresh it with. */
  function Own(kind: Kind, file: S.File, x: Inputs): Option<(Token, string)> {
    match kind
    case Config =>
      if x.readFails || file.None? || file.value.jwt.token == "" then None
      else Some((file.value.jwt.token, file.value.jwt.refreshToken))
    case Env => if x.envToken == "" then None else Some((x.envToken, x.envSecret))
    case AuthAPI => None
  }

  /** The provider's own token is replaced only if there is a secret to do so and the token is
      within the window of its expiration. */
  predicate NeedsRefresh(decode: Decoder, window: int, own: (Token, string), now: int)
    requires decode(own.0).Some?
  {
    own.1 != "" && ExpiredAt(BasisOf(decode(own.0).value, window), now)
  }

  /** A token of its own that needs no refresh is checked and returned without a word to the
      server or the disk: whatever they would have answered makes no difference. */
  lemma OwnTokenIsServed(kind: Kind, decode: Decoder, window: int, b: Basis, file: S.File, x: Inputs)
    requires Own(kind, file, x).Some? && decode(Own(kind, file, x).value.0).Some?
    requires !NeedsRefresh(decode, window, Own(kind, file, x).value, x.expiryClock)
    ensures
      var token := Own(kind, file, x).value.0;
      RetrieveOutcome(kind, decode, window, b, file, x)
      == Outcome(BasisOf(decode(token).value, window), file,
                 if IsValid(decode, token, x.validClock) then Some(token) else None)
  {
  }

  /** Where the answer of the server has to get before it can be used. */
  predicate CanRenew(kind: Kind, file: S.File, x: Inputs) {
    match kind
    case Config => x.writeFault.NoFault?       // written to the session, with the secret
    case Env => !x.readFails && file.Some?     // the session names the project to ask for
    case AuthAPI => file.Some? && x.writeFault.NoFault?
  }

  /** One that needs a refresh is never returned itself: the server's answer is, exactly if it is
      signed, not past its expiration, and can be put where it belongs; and then the session
      holds it with the same secret, unless it came from the environment. */
  lemma ExpiredTokenIsReplaced(kind: Kind, decode: Decoder, window: int, b: Basis, file: S.File, x: Inputs)
    requires Own(kind, file, x).Some? && decode(Own(kind, file, x).value.0).Some?
    requires NeedsRefresh(decode, window, Own(kind, file, x).value, x.expiryClock)
    ensures
      var secret := Own(kind, file, x).value.1;
      var r := RetrieveOutcome(kind, decode, window, b, file, x);
      && (r.token.Some? <==>
            x.reply.Some? && IsValid(decode, x.reply.value, x.validClock) && CanRenew(kind, file, x))
      && (r.token.Some? ==>
            && r.token == x.reply && r.basis == BasisOf(decode(x.reply.value).value, window)
            && r.file == if kind.Env? then file
                         else Some(S.Snapshot(file.value.oauth, S.JWT(x.reply.value, secret), file.value.project)))
      && (kind.Env? ==> r.file == file)
  {
  }

  /** The server's own provider returns its answer, exactly if it is signed, not past its
      expiration, and could be written to the session, where no secret goes with it. */
  lemma FreshTokenIsStored(decode: Decoder, window: int, b: Basis, file: S.File, x: Inputs)
    ensures
      var r := RetrieveOutcome(AuthAPI, decode, window, b, file, x);
      && (r.token.Some? <==>
            x.reply.Some? && IsValid(decode, x.reply.value, x.validClock) && CanRenew(AuthAPI, file, x))
      && (r.token.Some? ==>
            && r.token == x.reply && r.basis == BasisOf(decode(x.reply.value).value, window)
            && r.file == Some(S.Snapshot(file.value.oauth, S.JWT(x.reply.value, ""), file.value.project)))
      // a token that is not valid is not written
      && (x.reply.Some? && !IsValid(decode, x.reply.value, x.validClock) ==> r.file == file)
  {
  }

  /** Without a token that can be decoded, of its own or from the server, nothing is returned and
      nothing changes. */
  lemma NothingToGive(kind: Kind, decode: Decoder, window: int, b: Basis, file: S.File, x: Inputs)
    requires if kind.AuthAPI? then x.reply.None? || decode(x.reply.value).None?
             else Own(kind, file, x).None? || decode(Own(kind, file, x).value.0).None?
    ensures RetrieveOutcome(kind, decode, window, b, file, x) == Outcome(b, file, None)
  {
  }

  /** Retrieval replaced the expiry and then could not write the session. */
  predicate WriteLost(kind: Kind, decode: Decoder, window: int, file: S.File, x: Inputs) {
    && x.reply.Some? && decode(x.reply.value).Some? && !S.Succeeds(file, x.writeFault)
    && match kind
       case Env => false
       case AuthAPI => IsValid(decode, x.reply.value, x.validClock)
       case Config =>
         && !x.readFails && file.Some? && file.value.jwt.token != ""
         && decode(file.value.jwt.token).Some? && file.value.jwt.refreshToken != ""
         && ExpiredAt(BasisOf(decode(file.value.jwt.token).value, window), x.expiryClock)
  }

  /** After a failed retrieval an expired provider goes on counting as expired, except when
      the session could not be written: then it passes off the lost token's expiry as its own. */
  lemma FailedRetrieveStaysExpiredUnless(kind: Kind, decode: Decoder, window: int, b: Basis,
                                         file: S.File, x: Inputs, later: int)
    requires RetrieveOutcome(kind, decode, window, b, file, x).token.None?
    requires ExpiredAt(b, x.expiryClock) && x.expiryClock <= x.validClock <= later
    ensures
      !ExpiredAt(RetrieveOutcome(kind, decode, window, b, file, x).basis, later) <==>
        && WriteLost(kind, decode, window, file, x)
        && !ExpiredAt(BasisOf(decode(x.reply.value).value, window), later)
  {
  }

  /** DefaultExpireWindow, a time.Duration. */
  const DEFAULT_EXPIRE_WINDOW := 20

  /** The comment promises 20 seconds: a token then counts as expired for that long before it
      is. With the constant as it is, it does so for its last 20 nanoseconds only. */
  lemma DefaultWindowIsNanoseconds(c: Claims, now: int)
    requires ExpiresAt(c) != 0
    ensures ExpiredAt(BasisOf(c, 20 * SECOND), now) && !ExpiredAt(BasisOf(c, DEFAULT_EXPIRE_WINDOW), now)
      <==> (ExpiresAt(c) - 20) * SECOND <= now < ExpiresAt(c) * SECOND - 20
  {
  }
}
