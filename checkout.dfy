/**
 * `POST /gerarqrcode`: validate the request, apply the per-phone rate limit, record
 * the attempt, build the deposit payload, ask the provider for a PIX charge (retrying
 * once with a fresh token after a 401) and store the provider's transaction id.
 */
module Checkout {
  import opened Wrappers
  import opened JsText
  import opened Ledger
  import opened OndaPay

  const HOUR_MS := 60 * 60 * 1000
  const MONTH_MS := 30 * 24 * 60 * 60 * 1000
  const MAX_PER_HOUR := 3
  const MAX_PER_MONTH := 5
  const EXPIRY_MS := 30 * 60 * 1000
  const WEBHOOK_URL := "https://cinepremiumedit.domcloud.dev/ondapay-webhook"
  const GENERIC_ERROR := "Erro interno ao gerar QR code."

  /** The request body; a field the client did not send is `None`. */
  datatype Request = Request(
    value: Option<int>,  // amount in cents
    nome: Option<string>,
    telefone: Option<string>,
    cpf: Option<string>,
    email: Option<string>,
    productTitle: Option<string>,
    productDescription: Option<string>)

  /** `value && nome && telefone && cpf && email` is truthy. */
  predicate HasRequiredFields(req: Request) {
    && req.value.Some? && req.value.value != 0
    && Truthy(req.nome) && Truthy(req.telefone) && Truthy(req.cpf) && Truthy(req.email)
  }

  // ---------------------------------------------------------------- rate limit

  /** The decision on the two counts. */
  predicate Denied(lastHour: nat, lastMonth: nat) {
    lastHour >= MAX_PER_HOUR || lastMonth >= MAX_PER_MONTH
  }

  /** The rate limit, counted over the records that exist before this attempt. */
  predicate RateLimited(t: Table, phone: string, now: int)
    ensures RateLimited(t, phone, now) ==>
      exists id :: id in t && t[id].telefone == phone && t[id].dataTransacao >= now - MONTH_MS
  {
    CountWindowMonotone(t, phone, now - MONTH_MS, now - HOUR_MS);
    Denied(CountSince(t, phone, now - HOUR_MS), CountSince(t, phone, now - MONTH_MS))
  }

  /** Three attempts by a phone within the last hour block the next one. */
  lemma ThreeInAnHourDeny(t: Table, phone: string, now: int, ids: set<nat>)
    requires |ids| >= MAX_PER_HOUR
    requires forall id :: id in ids ==> id in t && t[id].telefone == phone && t[id].dataTransacao >= now - HOUR_MS
    ensures RateLimited(t, phone, now)
  {
    CountAtLeast(t, phone, now - HOUR_MS, ids);
  }

  /** Five attempts by a phone within the last 30 days block the next one, whatever the hourly count. */
  lemma FiveInAMonthDeny(t: Table, phone: string, now: int, ids: set<nat>)
    requires |ids| >= MAX_PER_MONTH
    requires forall id :: id in ids ==> id in t && t[id].telefone == phone && t[id].dataTransacao >= now - MONTH_MS
    ensures RateLimited(t, phone, now)
  {
    CountAtLeast(t, phone, now - MONTH_MS, ids);
  }

  /**
   * Once the phone's last attempt is more than an hour old, it may try again unless
   * it reached the monthly limit.
   */
  lemma AllowedAfterTheHour(t: Table, phone: string, now: int)
    requires forall id :: id in t && t[id].telefone == phone ==> t[id].dataTransacao < now - HOUR_MS
    ensures RateLimited(t, phone, now) <==> CountSince(t, phone, now - MONTH_MS) >= MAX_PER_MONTH
  {
  }

  /**
   * An allowed attempt is counted in both windows of its phone, so the counts never
   * pass 3 in the hour and 5 in the 30 days that end at an allowed attempt.
   */
  lemma AllowedAttemptCounted(t: Table, id: nat, nome: string, phone: string, now: int)
    requires id !in t && !RateLimited(t, phone, now)
    ensures var t' := t[id := Record(nome, phone, GERADO, None, now)];
      && CountSince(t', phone, now - HOUR_MS) == CountSince(t, phone, now - HOUR_MS) + 1 <= MAX_PER_HOUR
      && CountSince(t', phone, now - MONTH_MS) == CountSince(t, phone, now - MONTH_MS) + 1 <= MAX_PER_MONTH
  {
    var r := Record(nome, phone, GERADO, None, now);
    CountAfterInsert(t, id, r, phone, now - HOUR_MS);
    CountAfterInsert(t, id, r, phone, now - MONTH_MS);
  }

  // ---------------------------------------------------------------- payload

  /** Calendar fields of the expiry in local time, the month counted from 1. */
  datatype DateTime = DateTime(year: nat, month: nat, day: nat, hour: nat, minute: nat, second: nat)

  predicate ValidDateTime(d: DateTime) {
    1000 <= d.year <= 9999 && 1 <= d.month <= 12 && 1 <= d.day <= 31
    && d.hour < 24 && d.minute < 60 && d.second < 60
  }

  /** `YYYY-MM-DD HH:MM:SS`: the year as it is, every other field padded to two digits. */
  function DueDate(d: DateTime): (s: string)
    ensures ValidDateTime(d) ==> |s| == 19
    ensures ValidDateTime(d) ==> s[4] == '-' && s[7] == '-' && s[10] == ' ' && s[13] == ':' && s[16] == ':'
  {
    FourDigits(d.year);
    NatToString(d.year) + "-" + Pad2(d.month) + "-" + Pad2(d.day) + " "
      + Pad2(d.hour) + ":" + Pad2(d.minute) + ":" + Pad2(d.second)
  }

  lemma FourDigits(n: nat)
    ensures 1000 <= n <= 9999 ==> |NatToString(n)| == 4
  {
  }

  /** Reads a `YYYY-MM-DD HH:MM:SS` string back into its fields. */
  function ParseDueDate(s: string): (r: Option<DateTime>)
    ensures r.Some? ==> |s| == 19
  {
    if |s| == 19 && s[4] == '-' && s[7] == '-' && s[10] == ' ' && s[13] == ':' && s[16] == ':'
      && AllDigits(s[0..4]) && AllDigits(s[5..7]) && AllDigits(s[8..10])
      && AllDigits(s[11..13]) && AllDigits(s[14..16]) && AllDigits(s[17..19])
    then Some(DateTime(DigitsValue(s[0..4]), DigitsValue(s[5..7]), DigitsValue(s[8..10]),
                       DigitsValue(s[11..13]), DigitsValue(s[14..16]), DigitsValue(s[17..19])))
    else None
  }

  /** The due date names the expiry unambiguously: it reads back to the same fields. */
  lemma DueDateRoundTrip(d: DateTime)
    ensures ValidDateTime(d) ==> ParseDueDate(DueDate(d)) == Some(d)
  {
    if !ValidDateTime(d) {
      return;
    }
    var s := DueDate(d);
    var y, mo, da, h, mi, se := NatToString(d.year), Pad2(d.month), Pad2(d.day), Pad2(d.hour), Pad2(d.minute), Pad2(d.second);
    FourDigits(d.year);
    assert s == y + "-" + mo + "-" + da + " " + h + ":" + mi + ":" + se;
    assert s[0..4] == y by { assert forall k :: 0 <= k < 4 ==> s[k] == y[k]; }
    assert s[5..7] == mo by { assert s[5] == mo[0] && s[6] == mo[1]; }
    assert s[8..10] == da by { assert s[8] == da[0] && s[9] == da[1]; }
    assert s[11..13] == h by { assert s[11] == h[0] && s[12] == h[1]; }
    assert s[14..16] == mi by { assert s[14] == mi[0] && s[15] == mi[1]; }
    assert s[17..19] == se by { assert s[17] == se[0] && s[18] == se[1]; }
    NatToStringValue(d.year);
    PadValue(d.month);
    PadValue(d.day);
    PadValue(d.hour);
    PadValue(d.minute);
    PadValue(d.second);
  }

  /** A template literal shows an absent value as `undefined`. */
  /** A template literal's rendering of an optional string: an absent value prints as `undefined`. */
  function Show(v: Option<string>): string {
    if v.Some? then v.value else "undefined"
  }

  /** `${productTitle} - ${productDescription || ''}`. */
  function Description(title: Option<string>, description: Option<string>): (r: string)
    ensures |r| >= |Show(title)| + 3 && r[..|Show(title)|] == Show(title)
    ensures r[|Show(title)|..|Show(title)| + 3] == " - "
    ensures Truthy(description) ==> r[|Show(title)| + 3..] == description.value
    ensures !Truthy(description) ==> r == Show(title) + " - "
  {
    Show(title) + " - " + (if Truthy(description) then description.value else "")
  }

  /** The deposit request for the attempt recorded under `id`. */
  function BuildPayload(id: nat, req: Request, expiry: DateTime): Payload
    requires HasRequiredFields(req)
  {
    Payload(
      req.value.value,
      NatToString(id),
      WEBHOOK_URL,
      Description(req.productTitle, req.productDescription),
      DueDate(expiry),
      Payer(req.nome.value, StripNonDigits(req.cpf.value), req.email.value))
  }

  /**
   * What the provider receives: an `external_id` that reads back as the record id,
   * a document of digits only with the CPF's digits in order, and a due date that
   * reads back as the expiry.
   */
  lemma PayloadFacts(id: nat, req: Request, expiry: DateTime)
    requires HasRequiredFields(req)
    ensures var p := BuildPayload(id, req, expiry);
      && ParseInt(p.externalId) == Some(id)
      && AllDigits(p.payer.document)
      && StripNonDigits(p.payer.document) == StripNonDigits(req.cpf.value)
      && (ValidDateTime(expiry) ==> ParseDueDate(p.dueDate) == Some(expiry))
      && p.webhook == WEBHOOK_URL && p.amountCents == req.value.value
      && p.payer.name == req.nome.value && p.payer.email == req.email.value
  {
    ParseIntOfNatToString(id, []);
    assert NatToString(id) + [] == NatToString(id);
    StripNonDigitsIdempotent(req.cpf.value);
    DueDateRoundTrip(expiry);
  }

  // ---------------------------------------------------------------- deposit with retry

  /** Outcome of the deposit exchange: the charge, a token failure, or a provider failure. */
  datatype PayResult =
    | Accepted(idTransaction: string, qrcode: string, qrcodeBase64: string)
    | AuthFailed
    | Rejected(reply: DepositReply)

  datatype Exchange = Exchange(result: PayResult, world: World, calls: seq<Call>)

  function ResultOf(d: DepositReply): PayResult {
    if d.DepositOk? then Accepted(d.idTransaction, d.qrcode, d.qrcodeBase64) else Rejected(d)
  }

  /**
   * Lines 147-169: take a token (cached if possible) and submit the deposit; after a
   * 401, and only then, force a new token and submit once more.
   */
  function PayWithRetry(w: World, p: Payload): (r: Exchange)
    ensures |r.calls| <= 4
    ensures |w.deposits| - 2 <= |r.world.deposits| <= |w.deposits|
    ensures r.result.Accepted? ==> |r.world.deposits| < |w.deposits|
  {
    var t1 := GetToken(w, false);
    if t1.reply.None? then Exchange(AuthFailed, t1.world, t1.calls)
    else
      var d1 := NextDeposit(t1.world.deposits);
      var w1 := t1.world.(deposits := Rest(t1.world.deposits));
      var calls1 := t1.calls + [Deposit(p, t1.reply.value)];
      if !IsUnauthorized(d1) then Exchange(ResultOf(d1), w1, calls1)
      else
        var t2 := GetToken(w1, true);
        if t2.reply.None? then Exchange(AuthFailed, t2.world, calls1 + t2.calls)
        else
          var d2 := NextDeposit(t2.world.deposits);
          Exchange(ResultOf(d2), t2.world.(deposits := Rest(t2.world.deposits)),
                   calls1 + t2.calls + [Deposit(p, t2.reply.value)])
  }

  function CountDeposits(calls: seq<Call>): nat {
    if calls == [] then 0 else (if calls[0].Deposit? then 1 else 0) + CountDeposits(calls[1..])
  }

  lemma {:induction false} CountDepositsAppend(a: seq<Call>, b: seq<Call>)
    ensures CountDeposits(a + b) == CountDeposits(a) + CountDeposits(b)
  {
    if a == [] {
      assert a + b == b;
    } else {
      assert (a + b)[0] == a[0] && (a + b)[1..] == a[1..] + b;
      CountDepositsAppend(a[1..], b);
    }
  }

  /**
   * The calls of one exchange: an optional login, then at most two deposits of the
   * same payload; the second comes only after a 401 on the first and right after
   * exactly one (forced) login, whose token it carries.
   */
  lemma RetryProtocol(w: World, p: Payload)
    ensures var e := PayWithRetry(w, p);
      && CountDeposits(e.calls) <= 2
      && (forall i :: 0 <= i < |e.calls| && e.calls[i].Deposit? ==> e.calls[i].payload == p)
      && (CountDeposits(e.calls) == 2 <==>
            (GetToken(w, false).reply.Some? && IsUnauthorized(NextDeposit(w.deposits))
             && GetToken(GetToken(w, false).world.(deposits := Rest(w.deposits)), true).reply.Some?))
      && (CountDeposits(e.calls) == 2 ==>
            exists pre: seq<Call>, a: string, b: string ::
              && (pre == [] || pre == [Login])
              && e.calls == pre + [Deposit(p, a), Login, Deposit(p, b)]
              && Some(b) == e.world.token)
  {
    var e := PayWithRetry(w, p);
    var t1 := GetToken(w, false);
    if t1.reply.Some? {
      var calls1 := t1.calls + [Deposit(p, t1.reply.value)];
      CountDepositsAppend(t1.calls, [Deposit(p, t1.reply.value)]);
      var d1 := NextDeposit(w.deposits);
      if IsUnauthorized(d1) {
        var w1 := t1.world.(deposits := Rest(t1.world.deposits));
        var t2 := GetToken(w1, true);
        CountDepositsAppend(calls1, t2.calls);
        if t2.reply.Some? {
          CountDepositsAppend(calls1 + t2.calls, [Deposit(p, t2.reply.value)]);
          assert e.calls == t1.calls + [Deposit(p, t1.reply.value), Login, Deposit(p, t2.reply.value)];
        }
      }
    }
  }

  /** A cached token is used for the first deposit without logging in. */
  lemma CachedTokenFirst(w: World, p: Payload)
    requires CacheHit(w.token, false)
    ensures PayWithRetry(w, p).calls[0] == Deposit(p, w.token.value)
  {
  }

  /** A failure other than 401 is not retried. */
  lemma NoRetryOtherwise(w: World, p: Payload)
    requires !IsUnauthorized(NextDeposit(GetToken(w, false).world.deposits))
    ensures CountDeposits(PayWithRetry(w, p).calls) <= 1
  {
    var t1 := GetToken(w, false);
    if t1.reply.Some? {
      CountDepositsAppend(t1.calls, [Deposit(p, t1.reply.value)]);
    }
  }

  /**
   * An expired cached token: the first deposit is refused with 401, a forced login
   * yields a new token, and the second deposit succeeds. Exactly one charge results,
   * carrying the second answer's transaction id, and the new token is cached.
   */
  lemma RetryAfterExpiredToken(w: World, p: Payload, newToken: string)
    requires CacheHit(w.token, false) && |w.deposits| >= 2
    requires IsUnauthorized(w.deposits[0]) && w.deposits[1].DepositOk?
    requires NextLogin(w.logins) == LoginOk(newToken)
    ensures var e := PayWithRetry(w, p);
      && e.result == ResultOf(w.deposits[1]) && e.result.Accepted?
      && e.result.idTransaction == w.deposits[1].idTransaction
      && e.calls == [Deposit(p, w.token.value), Login, Deposit(p, newToken)]
      && e.world == World(Some(newToken), Rest(w.logins), w.deposits[2..])
  {
  }

  /** The transaction id of an accepted charge is the one in the last deposit answer consumed. */
  lemma AcceptedFromLastDeposit(w: World, p: Payload)
    ensures var e := PayWithRetry(w, p);
      e.result.Accepted? ==>
        exists k :: 0 <= k < |w.deposits| && |e.world.deposits| == |w.deposits| - k - 1
          && w.deposits[k] == DepositOk(e.result.idTransaction, e.result.qrcode, e.result.qrcodeBase64)
  {
  }

  // ---------------------------------------------------------------- the route

  /** The route's answers. `Failed(None)` is `{error: undefined}`. */
  datatype SessionReply =
    | Session(id: string, qrCode: string, qrCodeBase64: string, expirationTimestamp: int)
    | MissingFields
    | TooManyAttempts
    | Failed(error: Option<string>)

  /** The HTTP status the route sends with each reply. */
  function HttpStatus(r: SessionReply): int {
    match r
    case Session(_, _, _, _) => 200
    case MissingFields => 400
    case TooManyAttempts => 429
    case Failed(_) => 400
  }

  /** `Object.values(error.response.data.msg)[0]` when that `msg` is truthy, else the generic text. */
  function ErrorMessage(r: PayResult): (m: Option<string>)
    requires !r.Accepted?
    ensures r.AuthFailed? ==> m == Some(GENERIC_ERROR)
    ensures m.Some? && m.value != GENERIC_ERROR ==>
      r.Rejected? && r.reply.DepositHttpError? && r.reply.msg.Some? && r.reply.msg.value != []
      && m.value == r.reply.msg.value[0]
    ensures r.Rejected? && r.reply.DepositHttpError? && r.reply.msg.Some? && r.reply.msg.value != [] ==>
      m == Some(r.reply.msg.value[0])
    ensures r.Rejected? && r.reply.DepositHttpError? && r.reply.msg == Some([]) ==> m.None?
    ensures !(r.Rejected? && r.reply.DepositHttpError? && r.reply.msg.Some?) ==> m == Some(GENERIC_ERROR)
  {
    if r.Rejected? && r.reply.DepositHttpError? && r.reply.msg.Some? then
      (if r.reply.msg.value != [] then Some(r.reply.msg.value[0]) else None)
    else Some(GENERIC_ERROR)
  }

  function ReplyOf(r: PayResult, now: int): (reply: SessionReply)
    ensures HttpStatus(reply) == (if r.Accepted? then 200 else 400)
    ensures reply.Session? ==> reply.id == r.idTransaction && reply.expirationTimestamp == now + EXPIRY_MS
    ensures r.Accepted? ==> reply.Session? && reply.qrCode == r.qrcode && reply.qrCodeBase64 == r.qrcodeBase64
    ensures !r.Accepted? ==> reply == Failed(ErrorMessage(r))
  {
    if r.Accepted? then Session(r.idTransaction, r.qrcode, r.qrcodeBase64, now + EXPIRY_MS)
    else Failed(ErrorMessage(r))
  }

  function TransactionOf(r: PayResult): Option<string> {
    if r.Accepted? then Some(r.idTransaction) else None
  }

  /** Lines 147-169 as the route runs them, with the mutable `token` and `response`. */
  method DepositWithRetry(cache: TokenCache, provider: Provider, payload: Payload)
    returns (result: PayResult)
    modifies cache, provider
    ensures var e := PayWithRetry(old(World(cache.token, provider.loginReplies, provider.depositReplies)), payload);
      && result == e.result
      && World(cache.token, provider.loginReplies, provider.depositReplies) == e.world
      && provider.calls == old(provider.calls) + e.calls
  {
    var token := cache.Get(false, provider);
    if token.None? {
      return AuthFailed;
    }
    var response := provider.Deposit(payload, token.value);
    if IsUnauthorized(response) {
      token := cache.Get(true, provider);
      if token.None? {
        return AuthFailed;
      }
      response := provider.Deposit(payload, token.value);
    }
    result := ResultOf(response);
  }

  /** Lines 131-182, once the request has passed validation and the rate limit. */
  method RecordAndCharge(ledger: PurchaseLedger, cache: TokenCache, provider: Provider,
                         req: Request, now: int, expiry: DateTime)
    returns (reply: SessionReply)
    requires ledger.Valid() && HasRequiredFields(req)
    modifies ledger, cache, provider
    ensures ledger.Valid()
    ensures var id := old(ledger.nextId);
      var e := PayWithRetry(old(World(cache.token, provider.loginReplies, provider.depositReplies)),
                            BuildPayload(id, req, expiry));
      && ledger.nextId == id + 1
      && ledger.records == old(ledger.records)[id :=
           Record(req.nome.value, req.telefone.value, GERADO, TransactionOf(e.result), now)]
      && World(cache.token, provider.loginReplies, provider.depositReplies) == e.world
      && provider.calls == old(provider.calls) + e.calls
      && reply == ReplyOf(e.result, now)
      && !reply.MissingFields? && !reply.TooManyAttempts?
  {
    ghost var w := World(cache.token, provider.loginReplies, provider.depositReplies);
    var id := ledger.Create(req.nome.value, req.telefone.value, now);
    ghost var created := ledger.records;
    var payload := BuildPayload(id, req, expiry);
    var result := DepositWithRetry(cache, provider, payload);
    ghost var e := PayWithRetry(w, payload);
    assert result == e.result;
    if result.Accepted? {
      ledger.SetTransactionId(id, result.idTransaction);
      assert ledger.records == created[id := created[id].(transactionId := Some(result.idTransaction))];
    }
    reply := ReplyOf(result, now);
  }

  /**
   * `POST /gerarqrcode` at time `now`, where `expiry` holds the local calendar fields
   * of `now` plus 30 minutes.
   */
  method CreateSession(ledger: PurchaseLedger, cache: TokenCache, provider: Provider,
                       req: Request, now: int, expiry: DateTime)
    returns (reply: SessionReply)
    requires ledger.Valid()
    modifies ledger, cache, provider
    ensures ledger.Valid()
    ensures reply.MissingFields? <==> !HasRequiredFields(req)
    ensures !HasRequiredFields(req) ==> HttpStatus(reply) == 400
    ensures reply.TooManyAttempts? ==> HttpStatus(reply) == 429
    ensures reply.Session? ==> HttpStatus(reply) == 200
    ensures reply.TooManyAttempts? <==>
      HasRequiredFields(req) && RateLimited(old(ledger.records), req.telefone.value, now)
    ensures (reply.MissingFields? || reply.TooManyAttempts?) ==>
      && ledger.records == old(ledger.records) && ledger.nextId == old(ledger.nextId)
      && cache.token == old(cache.token)
      && provider.calls == old(provider.calls)
      && provider.loginReplies == old(provider.loginReplies)
      && provider.depositReplies == old(provider.depositReplies)
    ensures !(reply.MissingFields? || reply.TooManyAttempts?) ==>
      var id := old(ledger.nextId);
      var e := PayWithRetry(old(World(cache.token, provider.loginReplies, provider.depositReplies)),
                            BuildPayload(id, req, expiry));
      && ledger.nextId == id + 1
      && ledger.records == old(ledger.records)[id :=
           Record(req.nome.value, req.telefone.value, GERADO, TransactionOf(e.result), now)]
      && World(cache.token, provider.loginReplies, provider.depositReplies) == e.world
      && provider.calls == old(provider.calls) + e.calls
      && reply == ReplyOf(e.result, now)
  {
    if !HasRequiredFields(req) {
      return MissingFields;
    }
    var telefone := req.telefone.value;
    var attemptsLastHour := ledger.Count(telefone, now - HOUR_MS);
    var attemptsLastMonth := ledger.Count(telefone, now - MONTH_MS);
    if attemptsLastHour >= MAX_PER_HOUR || attemptsLastMonth >= MAX_PER_MONTH {
      return TooManyAttempts;
    }

    reply := RecordAndCharge(ledger, cache, provider, req, now, expiry);
  }
}
