/**
 * The OndaPay payment provider as this server sees it, and the server's cache of
 * the provider's bearer token (`ondaPayToken` and `getOndaPayToken`).
 *
 * The HTTP calls themselves are not modelled: the provider is an oracle whose
 * answers are fixed in advance (`Provider`), and every call made to it is logged,
 * so that which calls were made, in which order, can be stated.
 */
module OndaPay {
  import opened Wrappers

  /** Answer to `POST /api/v1/login`: a token, or any failure (HTTP error or none). */
  datatype LoginReply = LoginOk(token: string) | LoginFailed

  datatype Payer = Payer(name: string, document: string, email: string)

  /** The JSON body of `POST /api/v1/deposit/pix`; the amount is kept in integer cents. */
  datatype Payload = Payload(
    amountCents: int,
    externalId: string,
    webhook: string,
    description: string,
    dueDate: string,
    payer: Payer)

  /**
   * Answer to `POST /api/v1/deposit/pix`. An HTTP error carries its status code and,
   * when `error.response.data.msg` is truthy, `Object.values(msg)` in order.
   * `DepositNoResponse` is a failure without a response (network error, timeout).
   */
  datatype DepositReply =
    | DepositOk(idTransaction: string, qrcode: string, qrcodeBase64: string)
    | DepositHttpError(status: int, msg: Option<seq<string>>)
    | DepositNoResponse

  const UNAUTHORIZED := 401

  predicate IsUnauthorized(d: DepositReply) {
    d.DepositHttpError? && d.status == UNAUTHORIZED
  }

  /** One request sent to the provider. */
  datatype Call = Login | Deposit(payload: Payload, bearer: string)

  /** The next scripted answer; an exhausted script answers as an unreachable provider. */
  function NextLogin(replies: seq<LoginReply>): LoginReply {
    if replies == [] then LoginFailed else replies[0]
  }

  function NextDeposit(replies: seq<DepositReply>): DepositReply {
    if replies == [] then DepositNoResponse else replies[0]
  }

  function Rest<T>(s: seq<T>): seq<T> {
    if s == [] then [] else s[1..]
  }

  /**
   * Everything the token cache and the provider hold: the cached token and the
   * answers the provider has yet to give.
   */
  datatype World = World(token: Option<string>, logins: seq<LoginReply>, deposits: seq<DepositReply>)

  /** `if (ondaPayToken && !forceNew)`: a cached token is used only when truthy. */
  predicate CacheHit(token: Option<string>, forceNew: bool) {
    token.Some? && token.value != "" && !forceNew
  }

  /** What one `getOndaPayToken` call returns (`None`: it throws), leaves and sends. */
  datatype TokenStep = TokenStep(reply: Option<string>, world: World, calls: seq<Call>)

  /** `getOndaPayToken(forceNew)`. */
  function GetToken(w: World, forceNew: bool): (r: TokenStep)
    ensures r.world.deposits == w.deposits
    ensures CacheHit(w.token, forceNew) ==> r == TokenStep(w.token, w, [])
    ensures !CacheHit(w.token, forceNew) ==>
      && r.calls == [Login]
      && r.world.logins == Rest(w.logins)
      && r.world.token == r.reply
      && (r.reply.None? <==> NextLogin(w.logins).LoginFailed?)
      && (r.reply.Some? ==> r.reply.value == NextLogin(w.logins).token)
  {
    if CacheHit(w.token, forceNew) then TokenStep(w.token, w, [])
    else
      var login := NextLogin(w.logins);
      var token := if login.LoginOk? then Some(login.token) else None;
      TokenStep(token, World(token, Rest(w.logins), w.deposits), [Login])
  }

  /** A failed login leaves the cache empty, so the next call logs in again. */
  lemma FailedLoginClearsCache(w: World, forceNew: bool, later: bool)
    requires GetToken(w, forceNew).reply.None?
    ensures GetToken(w, forceNew).world.token.None?
    ensures GetToken(GetToken(w, forceNew).world, later).calls == [Login]
  {
  }

  /** A token obtained and not forced out is served from the cache on the next call. */
  lemma TokenReused(w: World, forceNew: bool)
    requires var s := GetToken(w, forceNew); s.reply.Some? && s.reply.value != ""
    ensures var s := GetToken(w, forceNew);
      GetToken(s.world, false) == TokenStep(s.reply, s.world, [])
  {
  }

  /** The provider's side: the answers still to come and the calls received so far. */
  class Provider {
    var loginReplies: seq<LoginReply>
    var depositReplies: seq<DepositReply>
    var calls: seq<Call>

    constructor (logins: seq<LoginReply>, deposits: seq<DepositReply>)
      ensures loginReplies == logins && depositReplies == deposits && calls == []
    {
      loginReplies := logins;
      depositReplies := deposits;
      calls := [];
    }

    method Login() returns (r: LoginReply)
      modifies this
      ensures r == NextLogin(old(loginReplies))
      ensures loginReplies == Rest(old(loginReplies)) && depositReplies == old(depositReplies)
      ensures calls == old(calls) + [Call.Login]
    {
      r := NextLogin(loginReplies);
      loginReplies := Rest(loginReplies);
      calls := calls + [Call.Login];
    }

    method Deposit(payload: Payload, bearer: string) returns (r: DepositReply)
      modifies this
      ensures r == NextDeposit(old(depositReplies))
      ensures depositReplies == Rest(old(depositReplies)) && loginReplies == old(loginReplies)
      ensures calls == old(calls) + [Call.Deposit(payload, bearer)]
    {
      r := NextDeposit(depositReplies);
      depositReplies := Rest(depositReplies);
      calls := calls + [Call.Deposit(payload, bearer)];
    }
  }

  /** The process-wide `ondaPayToken` (initially `null`). */
  class TokenCache {
    var token: Option<string>

    constructor ()
      ensures token == None
    {
      token := None;
    }

    /** `getOndaPayToken(forceNew)`: `r` is the token, or `None` where the source throws. */
    method Get(forceNew: bool, provider: Provider) returns (r: Option<string>)
      modifies this, provider
      ensures var s := GetToken(old(World(token, provider.loginReplies, provider.depositReplies)), forceNew);
        && r == s.reply
        && World(token, provider.loginReplies, provider.depositReplies) == s.world
        && provider.calls == old(provider.calls) + s.calls
    {
      if token.Some? && token.value != "" && !forceNew {
        return token;
      }
      var login := provider.Login();
      if login.LoginOk? {
        token := Some(login.token);
      } else {
        token := None;
      }
      r := token;
    }
  }
}
