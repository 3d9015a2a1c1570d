/**
 * Swap execution in the JavaScript client: prepare, check, sign once, then submit the signed
 * envelope until the answer is no longer ambiguous (sdk-js/src/client.ts).
 *
 * The network is a function from the number of a fetch to its reply, so every statement is about
 * every server behaviour; the wallet is a function from an envelope to what signing it returns.
 */
module SwapClient {
  import opened Options
  import opened Strings

  // Texts the code compares with or writes itself are named; any other text is carried along.

  datatype Mode = ClassicPathPayment | OtherMode(name: string)

  datatype Code =
    | NetworkError | DependencyUnavailable | UnknownError | InternalError | ValidationError
    | NetworkMismatch | UnsupportedExecutionMode | OtherCode(name: string)

  datatype Message =
    | Text(text: string) | HttpStatus(status: nat) | MissingEnvelope | EmptyEnvelope | EmptyPassphrase
    | WrongMode | WrongNetwork | EmptySignature | SubmitPending

  datatype DetailKey = StatusKey | QuoteIdKey | ModeKey | PreparedKey | IntegratorKey | OtherKey(name: string)
  datatype DetailValue = PendingReconcile | MissingPassphrase | Mismatch | ModeValue(mode: Mode) | OtherValue(text: string)
  type Details = map<DetailKey, DetailValue>

  /** A thrown value: the client's own error class, or anything else. */
  datatype Failure =
    | ApiError(status: int, code: Code, message: Message, details: Details)
    | Foreign(reason: string)

  /** The JSON object a prepare or a submit answers with; unvalidated fields are plain strings. */
  datatype Payload = Payload(
    quoteId: string,
    envelope: Option<string>,
    mode: Mode,
    passphrase: Option<string>,
    terms: string,
    txHash: string,
    status: string)

  /** What one fetch comes back with. A success whose JSON is falsy carries no payload. */
  datatype Reply =
    | Lost(reason: string)
    | Refused(httpStatus: nat, code: Option<Code>, text: Option<string>, extra: Details, retryAfter: real)
    | Answered(body: Option<Payload>)
    | Garbled(reason: string)

  type Network = nat -> Reply

  datatype Call = PrepareCall(request: string) | SubmitCall(quoteId: string, signedXdr: string)

  datatype Effect = Fetched(call: Call) | Slept(ms: real) | Signed(envelope: string)

  datatype Execution = Execution(prepared: Payload, txHash: string, status: string)

  // ---------------------------------------------------------------- one fetch

  /** What the caller of a single, unretried fetch gets. An absent or empty code or text has a default. */
  function Settle(reply: Reply): Result<Option<Payload>, Failure> {
    match reply
    case Lost(reason) => Err(ApiError(0, NetworkError, Text(reason), map[]))
    case Refused(status, code, text, extra, _) =>
      Err(ApiError(status, if code.Some? then code.value else UnknownError,
                   if text.Some? && text.value != "" then Text(text.value) else HttpStatus(status), extra))
    case Answered(body) => Ok(body)
    case Garbled(reason) => Err(Foreign(reason))
  }

  predicate Retryable(reply: Reply) {
    reply.Lost? || (reply.Refused? && reply.httpStatus != 409 && (reply.httpStatus == 429 || reply.httpStatus >= 500))
  }

  predicate Ambiguous(f: Failure) {
    f.ApiError? && (f.code == DependencyUnavailable || f.code == NetworkError || f.status == 503 || f.status == 0)
  }

  function Backoff(attempt: int): real
    decreases if attempt < 0 then -attempt else attempt
  {
    if attempt == 0 then 500.0
    else if attempt > 0 then 2.0 * Backoff(attempt - 1)
    else Backoff(attempt + 1) / 2.0
  }

  function Pause(reply: Reply, attempt: int): real {
    if reply.Refused? && reply.retryAfter > 0.0 then reply.retryAfter * 1000.0 else Backoff(attempt)
  }

  // ---------------------------------------------------------------- request

  /** `call` fetched again and again, with these pauses in between. */
  function Spaced(call: Call, pauses: seq<real>): seq<Effect> {
    if pauses == [] then [Fetched(call)]
    else [Fetched(call), Slept(pauses[0])] + Spaced(call, pauses[1..])
  }

  /** The `n`-th fetch from `from` is where a request with `left` retries stops. */
  ghost predicate StopsAt(net: Network, from: nat, left: int, n: nat) {
    && 1 <= n
    && (n == 1 || n <= left + 1)
    && (forall k {:trigger net(k)} :: from <= k < from + n - 1 ==> Retryable(net(k)))
    && (n <= left ==> !Retryable(net(from + n - 1)))
  }

  /** No request can stop at two different fetches, so `StopsAt` pins the number of fetches down. */
  lemma StopIsUnique(net: Network, from: nat, left: int, m: nat, n: nat)
    requires StopsAt(net, from, left, m) && StopsAt(net, from, left, n)
    ensures m == n
  {
    if m < n {
      NoEarlierStop(net, from, left, m, n);
    } else if n < m {
      NoEarlierStop(net, from, left, n, m);
    }
  }

  lemma NoEarlierStop(net: Network, from: nat, left: int, m: nat, n: nat)
    requires StopsAt(net, from, left, n) && 1 <= m < n
    ensures !StopsAt(net, from, left, m)
  {
    assert Retryable(net(from + m - 1));
  }

  method Request(net: Network, from: nat, retries: int, left: int, call: Call)
    returns (outcome: Result<Option<Payload>, Failure>, pauses: seq<real>, trace: seq<Effect>)
    ensures StopsAt(net, from, left, |pauses| + 1)
    ensures outcome == Settle(net(from + |pauses|))
    ensures trace == Spaced(call, pauses)
    ensures forall k :: 0 <= k < |pauses| ==> pauses[k] == Pause(net(from + k), retries - left + k)
    decreases left
  {
    var reply := net(from);
    if Retryable(reply) && left > 0 {
      var pause := Pause(reply, retries - left);
      var later, tail;
      outcome, later, tail := Request(net, from + 1, retries, left - 1, call);
      pauses := [pause] + later;
      trace := [Fetched(call), Slept(pause)] + tail;
      assert net(from + 1 + |later|) == net(from + |pauses|);
      forall k | 0 <= k < |pauses| ensures pauses[k] == Pause(net(from + k), retries - left + k) {
        if k > 0 {
          assert pauses[k] == later[k - 1];
        }
      }
    } else {
      outcome := Settle(reply);
      pauses := [];
      trace := [Fetched(call)];
    }
  }

  // ---------------------------------------------------------------- submit

  function Pending(f: Option<Failure>, quoteId: string): Failure {
    if f.Some? && f.value.ApiError? then
      f.value.(details := f.value.details[StatusKey := PendingReconcile][QuoteIdKey := OtherValue(quoteId)])
    else
      ApiError(503, DependencyUnavailable, SubmitPending,
               map[StatusKey := PendingReconcile, QuoteIdKey := OtherValue(quoteId)])
  }

  predicate Undecided(reply: Reply) {
    Settle(reply).Err? && Ambiguous(Settle(reply).error)
  }

  /** What the submit loop reports after its last reply. */
  function Verdict(reply: Reply, quoteId: string): Result<Payload, Failure> {
    match Settle(reply)
    case Ok(Some(p)) => Ok(p)
    case Ok(None) => Err(Pending(None, quoteId))
    case Err(f) => Err(if Ambiguous(f) then Pending(Some(f), quoteId) else f)
  }

  /** `n` submits of one body, one back-off apart; none when the retry limit is negative. */
  function Submits(call: Call, n: nat): seq<Effect> {
    if n == 0 then [] else Spaced(call, Backoffs(n - 1))
  }

  function Backoffs(n: nat): (b: seq<real>)
    ensures |b| == n && forall k :: 0 <= k < n ==> b[k] == Backoff(k)
  {
    if n == 0 then [] else Backoffs(n - 1) + [Backoff(n - 1)]
  }

  lemma {:induction false} SpacedOnce(call: Call, pauses: seq<real>, p: real)
    ensures Spaced(call, pauses + [p]) == Spaced(call, pauses) + [Slept(p), Fetched(call)]
    decreases |pauses|
  {
    if pauses == [] {
      assert pauses + [p] == [p] && [p][1..] == [];
    } else {
      SpacedOnce(call, pauses[1..], p);
      assert (pauses + [p])[1..] == pauses[1..] + [p];
    }
  }

  /** `n` submits and the pause after the last of them. */
  function Lead(call: Call, n: nat): seq<Effect> {
    if n == 0 then [] else Submits(call, n) + [Slept(Backoff(n - 1))]
  }

  lemma AnotherSubmit(call: Call, n: nat)
    ensures Lead(call, n) + [Fetched(call)] == Submits(call, n + 1)
  {
    if n > 0 {
      SpacedOnce(call, Backoffs(n - 1), Backoff(n - 1));
    }
  }

  /** Submits stop at the first reply that decides the outcome, or when the limit is used up. */
  ghost predicate SubmitStops(net: Network, from: nat, limit: int, n: nat) {
    && (if limit < 0 then n == 0 else 1 <= n <= limit + 1)
    && (forall k {:trigger net(k)} :: from <= k < from + n - 1 ==> Undecided(net(k)))
    && (0 < n <= limit ==> !Undecided(net(from + n - 1)))
  }

  /** `submitSwap` without retries: one fetch. */
  method SubmitSwap(net: Network, at: nat, call: Call)
    returns (answer: Result<Option<Payload>, Failure>, trace: seq<Effect>)
    ensures answer == Settle(net(at))
    ensures trace == [Fetched(call)]
  {
    var pauses;
    answer, pauses, trace := Request(net, at, 0, 0, call);
    assert pauses == [];
  }

  method Submit(net: Network, from: nat, quoteId: string, signedXdr: string, limit: int)
    returns (outcome: Result<Payload, Failure>, submits: nat, trace: seq<Effect>)
    ensures SubmitStops(net, from, limit, submits)
    ensures trace == Submits(SubmitCall(quoteId, signedXdr), submits)
    ensures outcome == if submits == 0 then Err(Pending(None, quoteId))
                       else Verdict(net(from + submits - 1), quoteId)
  {
    var call := SubmitCall(quoteId, signedXdr);
    var response: Option<Payload> := None;
    var lastErr: Option<Failure> := None;
    trace, submits := [], 0;
    while submits <= limit
      invariant submits == 0 || submits <= limit
      invariant forall k {:trigger net(k)} :: from <= k < from + submits ==> Undecided(net(k))
      invariant response.None? && (submits == 0 ==> lastErr.None?)
      invariant trace == Lead(call, submits)
    {
      var answer, fetched := SubmitSwap(net, from + submits, call);
      AnotherSubmit(call, submits);
      trace := trace + fetched;
      submits := submits + 1;
      if answer.Ok? {
        response, lastErr := answer.value, None;
        break;
      }
      if !Ambiguous(answer.error) {
        return Err(answer.error), submits, trace;
      }
      lastErr := Some(answer.error);
      if submits > limit {
        break;
      }
      trace := trace + [Slept(Backoff(submits - 1))];
    }
    outcome := if response.Some? then Ok(response.value) else Err(Pending(lastErr, quoteId));
  }

  // ---------------------------------------------------------------- execute

  /** The first reason not to sign what a prepare returned. */
  function Objection(p: Payload, passphrase: Result<string, Failure>): Option<Failure> {
    if p.mode != ClassicPathPayment then
      Some(ApiError(422, UnsupportedExecutionMode, WrongMode, map[ModeKey := ModeValue(p.mode)]))
    else if p.envelope.None? || Trim(p.envelope.value) == "" then
      Some(ApiError(500, InternalError, EmptyEnvelope, map[]))
    else if p.passphrase.None? || Trim(p.passphrase.value) == "" then
      Some(ApiError(400, ValidationError, EmptyPassphrase, map[StatusKey := MissingPassphrase]))
    else if passphrase.Err? then Some(passphrase.error)
    else if Trim(passphrase.value) == "" || Trim(passphrase.value) != Trim(p.passphrase.value) then
      Some(ApiError(400, NetworkMismatch, WrongNetwork,
                    map[StatusKey := Mismatch, PreparedKey := OtherValue(Trim(p.passphrase.value)),
                        IntegratorKey := OtherValue(Trim(passphrase.value))]))
    else None
  }

  /** The prepare reply is a classic envelope for the network the wallet is on. */
  predicate Ready(reply: Reply, passphrase: Result<string, Failure>) {
    && reply.Answered? && reply.body.Some? && passphrase.Ok?
    && var p := reply.body.value;
      && p.mode == ClassicPathPayment
      && p.envelope.Some? && Trim(p.envelope.value) != ""
      && p.passphrase.Some? && Trim(p.passphrase.value) != ""
      && Trim(p.passphrase.value) == Trim(passphrase.value)
  }

  /** The checks before signing leave no objection exactly to a reply that is ready. */
  lemma NoObjectionIffReady(p: Payload, passphrase: Result<string, Failure>)
    ensures Objection(p, passphrase).None? <==> Ready(Answered(Some(p)), passphrase)
  {
  }

  /** Each refusal to sign says which check failed, the first one that did. */
  lemma ObjectionSays(p: Payload, passphrase: Result<string, Failure>)
    requires Objection(p, passphrase).Some?
    ensures
      var f := Objection(p, passphrase).value;
      var noEnvelope := p.envelope.None? || Trim(p.envelope.value) == "";
      var noPassphrase := p.passphrase.None? || Trim(p.passphrase.value) == "";
      if p.mode != ClassicPathPayment then f.ApiError? && f.status == 422 && f.code == UnsupportedExecutionMode
      else if noEnvelope then f.ApiError? && f.status == 500 && f.code == InternalError
      else if noPassphrase then f.ApiError? && f.status == 400 && f.code == ValidationError
      else if passphrase.Err? then f == passphrase.error
      else f.ApiError? && f.status == 400 && f.code == NetworkMismatch
           && f.details[StatusKey := Mismatch] == f.details
           && f.details[PreparedKey := OtherValue(Trim(p.passphrase.value))] == f.details
           && f.details[IntegratorKey := OtherValue(Trim(passphrase.value))] == f.details
  {
  }

  /** What a wallet's answer is worth: an error of its own, or an empty signature, ends the swap. */
  function Refusal(signed: Result<string, Failure>): Failure {
    if signed.Err? then signed.error else ApiError(400, ValidationError, EmptySignature, map[])
  }

  predicate Usable(signed: Result<string, Failure>) {
    signed.Ok? && Trim(signed.value) != ""
  }

  const NO_ENVELOPE := ApiError(500, InternalError, MissingEnvelope, map[])

  method Prepare(net: Network, retries: int, request: string)
    returns (outcome: Result<Payload, Failure>, prepares: nat, pauses: seq<real>, trace: seq<Effect>)
    ensures StopsAt(net, 0, retries, prepares) && |pauses| == prepares - 1
    ensures forall k :: 0 <= k < |pauses| ==> pauses[k] == Pause(net(k), k)
    ensures trace == Spaced(PrepareCall(request), pauses)
    ensures var reply := net(prepares - 1);
            if Settle(reply).Err? then outcome == Err(Settle(reply).error)
            else if reply.body.Some? && reply.body.value.envelope.Some? && reply.body.value.envelope.value != ""
            then outcome == Ok(reply.body.value)
            else outcome == Err(NO_ENVELOPE)
  {
    var answer;
    answer, pauses, trace := Request(net, 0, retries, retries, PrepareCall(request));
    prepares := |pauses| + 1;
    match answer
    case Err(f) => outcome := Err(f);
    case Ok(body) =>
      if body.None? || body.value.envelope.None? || body.value.envelope.value == "" {
        outcome := Err(NO_ENVELOPE);
      } else {
        outcome := Ok(body.value);
      }
  }

  /** What happens between the prepare and the submits: nothing, or one signature. */
  method CheckAndSign(p: Payload, passphrase: Result<string, Failure>, sign: string -> Result<string, Failure>)
    returns (signedXdr: Result<string, Failure>, trace: seq<Effect>)
    requires p.envelope.Some?
    ensures trace == if Ready(Answered(Some(p)), passphrase) then [Signed(p.envelope.value)] else []
    ensures !Ready(Answered(Some(p)), passphrase) ==>
      Objection(p, passphrase).Some? && signedXdr == Err(Objection(p, passphrase).value)
    ensures Ready(Answered(Some(p)), passphrase) ==>
      var signed := sign(p.envelope.value);
      signedXdr == if Usable(signed) then signed else Err(Refusal(signed))
  {
    NoObjectionIffReady(p, passphrase);
    var objection := Objection(p, passphrase);
    if objection.Some? {
      return Err(objection.value), [];
    }
    trace := [Signed(p.envelope.value)];
    signedXdr := sign(p.envelope.value);
    if signedXdr.Ok? && Trim(signedXdr.value) == "" {
      signedXdr := Err(Refusal(signedXdr));
    }
  }

  function LimitOf(ambiguousRetries: Option<int>): int {
    if ambiguousRetries.Some? then ambiguousRetries.value else 2
  }

  function Reported(p: Payload, submitted: Result<Payload, Failure>): Result<Execution, Failure> {
    match submitted
    case Ok(s) => Ok(Execution(p, s.txHash, s.status))
    case Err(f) => Err(f)
  }

  /** How an execution went on after its prepare: what it reported, and what it did, in order. */
  datatype Run = Run(outcome: Result<Execution, Failure>, submits: nat, trace: seq<Effect>)

  /** Everything after a prepare that returned `p` as the reply to fetch `from - 1`. */
  ghost predicate Finished(net: Network, from: nat, p: Payload, passphrase: Result<string, Failure>,
                           sign: string -> Result<string, Failure>, limit: int, run: Run)
    requires p.envelope.Some?
  {
    var signed := sign(p.envelope.value);
    if !Ready(Answered(Some(p)), passphrase) then
      && Objection(p, passphrase).Some?
      && run == Run(Err(Objection(p, passphrase).value), 0, [])
    else if signed.Err? then
      run == Run(Err(signed.error), 0, [Signed(p.envelope.value)])
    else if Trim(signed.value) == "" then
      run == Run(Err(ApiError(400, ValidationError, EmptySignature, map[])), 0, [Signed(p.envelope.value)])
    else
      && SubmitStops(net, from, limit, run.submits)
      && run.trace == [Signed(p.envelope.value)] + Submits(SubmitCall(p.quoteId, signed.value), run.submits)
      && run.outcome == Reported(p, if run.submits == 0 then Err(Pending(None, p.quoteId))
                                    else Verdict(net(from + run.submits - 1), p.quoteId))
  }

  method Finish(net: Network, from: nat, p: Payload, passphrase: Result<string, Failure>,
                sign: string -> Result<string, Failure>, limit: int)
    returns (run: Run)
    requires p.envelope.Some?
    ensures Finished(net, from, p, passphrase, sign, limit, run)
  {
    var signedXdr, signing := CheckAndSign(p, passphrase, sign);
    if signedXdr.Err? {
      return Run(Err(signedXdr.error), 0, signing);
    }
    var submitted, submits, sending := Submit(net, from, p.quoteId, signedXdr.value, limit);
    run := Run(Reported(p, submitted), submits, signing + sending);
  }

  /** A whole execution: `prepares` fetches of the prepare call, then `run`. */
  ghost predicate Executed(net: Network, retries: int, passphrase: Result<string, Failure>,
                           sign: string -> Result<string, Failure>, limit: int, prepares: nat, run: Run) {
    && StopsAt(net, 0, retries, prepares)
    && var reply := net(prepares - 1);
      if Settle(reply).Err? then run == Run(Err(Settle(reply).error), 0, [])
      else if reply.body.Some? && reply.body.value.envelope.Some? && reply.body.value.envelope.value != ""
      then Finished(net, prepares, reply.body.value, passphrase, sign, limit, run)
      else run == Run(Err(NO_ENVELOPE), 0, [])
  }

  method ExecuteSwap(net: Network, retries: int, request: string, passphrase: Result<string, Failure>,
                     sign: string -> Result<string, Failure>, ambiguousRetries: Option<int>)
    returns (prepares: nat, pauses: seq<real>, run: Run, trace: seq<Effect>)
    ensures var limit := if ambiguousRetries.Some? then ambiguousRetries.value else 2;
            Executed(net, retries, passphrase, sign, limit, prepares, run)
    ensures |pauses| == prepares - 1 && forall k :: 0 <= k < |pauses| ==> pauses[k] == Pause(net(k), k)
    ensures trace == Spaced(PrepareCall(request), pauses) + run.trace
  {
    var prepared, fetched;
    prepared, prepares, pauses, fetched := Prepare(net, retries, request);
    if prepared.Err? {
      run := Run(Err(prepared.error), 0, []);
    } else {
      run := Finish(net, prepares, prepared.value, passphrase, sign, LimitOf(ambiguousRetries));
    }
    trace := fetched + run.trace;
  }

  // ---------------------------------------------------------------- what every execution does

  /** A repeated call leaves nothing in the trace but that call and pauses. */
  lemma {:induction false} SpacedHolds(call: Call, pauses: seq<real>, i: nat)
    requires i < |Spaced(call, pauses)|
    ensures Spaced(call, pauses)[i] == Fetched(call) || Spaced(call, pauses)[i].Slept?
    decreases |pauses|
  {
    if pauses != [] && i >= 2 {
      SpacedHolds(call, pauses[1..], i - 2);
    }
  }

  function Fetches(trace: seq<Effect>): nat {
    if trace == [] then 0 else (if trace[0].Fetched? then 1 else 0) + Fetches(trace[1..])
  }

  lemma {:induction false} SpacedFetches(call: Call, pauses: seq<real>)
    ensures Fetches(Spaced(call, pauses)) == |pauses| + 1
    decreases |pauses|
  {
    if pauses != [] {
      SpacedFetches(call, pauses[1..]);
      assert Spaced(call, pauses)[1..] == [Slept(pauses[0])] + Spaced(call, pauses[1..]);
      assert ([Slept(pauses[0])] + Spaced(call, pauses[1..]))[1..] == Spaced(call, pauses[1..]);
    }
  }

  /**
   * The wallet is asked at most once, only for the envelope of a reply that passed every check,
   * and before the first submit.
   */
  lemma SignsOnceAndOnlyAfterChecks(net: Network, retries: int, passphrase: Result<string, Failure>,
                                    sign: string -> Result<string, Failure>, limit: int, prepares: nat, run: Run,
                                    i: nat)
    requires Executed(net, retries, passphrase, sign, limit, prepares, run)
    requires i < |run.trace| && run.trace[i].Signed?
    ensures i == 0
    ensures Ready(net(prepares - 1), passphrase)
    ensures run.trace[i].envelope == net(prepares - 1).body.value.envelope.value
  {
    TraceOf(net, retries, passphrase, sign, limit, prepares, run);
    if Armed(net(prepares - 1), passphrase, sign) {
      SubmitsHold(SubmitOf(net(prepares - 1).body.value, sign), run.submits);
    }
  }

  /** The prepare can be signed, and the wallet signs it. */
  predicate Armed(reply: Reply, passphrase: Result<string, Failure>, sign: string -> Result<string, Failure>) {
    && Ready(reply, passphrase)
    && var signed := sign(reply.body.value.envelope.value);
      signed.Ok? && Trim(signed.value) != ""
  }

  function SubmitOf(p: Payload, sign: string -> Result<string, Failure>): Call
    requires p.envelope.Some? && sign(p.envelope.value).Ok?
  {
    SubmitCall(p.quoteId, sign(p.envelope.value).value)
  }

  lemma TraceOf(net: Network, retries: int, passphrase: Result<string, Failure>,
                sign: string -> Result<string, Failure>, limit: int, prepares: nat, run: Run)
    requires Executed(net, retries, passphrase, sign, limit, prepares, run)
    ensures if Armed(net(prepares - 1), passphrase, sign)
            then var p := net(prepares - 1).body.value;
                 run.trace == [Signed(p.envelope.value)] + Submits(SubmitOf(p, sign), run.submits)
            else run.submits == 0 && forall i :: 0 <= i < |run.trace| ==> run.trace[i].Signed?
  {
  }

  /**
   * Every fetch after the prepare is a submit of the one signed envelope under the prepared
   * quote, and it comes after the signature.
   */
  lemma SubmitsAreIdentical(net: Network, retries: int, passphrase: Result<string, Failure>,
                            sign: string -> Result<string, Failure>, limit: int, prepares: nat, run: Run, i: nat)
    requires Executed(net, retries, passphrase, sign, limit, prepares, run)
    requires i < |run.trace| && run.trace[i].Fetched?
    ensures 0 < i && Armed(net(prepares - 1), passphrase, sign)
    ensures run.trace[i].call == SubmitOf(net(prepares - 1).body.value, sign)
  {
    TraceOf(net, retries, passphrase, sign, limit, prepares, run);
    SubmitsHold(SubmitOf(net(prepares - 1).body.value, sign), run.submits);
  }

  lemma SubmitsHold(call: Call, n: nat)
    ensures forall i :: 0 <= i < |Submits(call, n)| ==> Submits(call, n)[i] == Fetched(call) || Submits(call, n)[i].Slept?
  {
    if n > 0 {
      forall i | 0 <= i < |Submits(call, n)|
        ensures Submits(call, n)[i] == Fetched(call) || Submits(call, n)[i].Slept?
      {
        SpacedHolds(call, Backoffs(n - 1), i);
      }
    }
  }

  /** Each submit is exactly one fetch, and there are at most limit + 1 of them. */
  lemma OneFetchPerSubmit(net: Network, retries: int, passphrase: Result<string, Failure>,
                          sign: string -> Result<string, Failure>, limit: int, prepares: nat, run: Run)
    requires Executed(net, retries, passphrase, sign, limit, prepares, run)
    ensures Fetches(run.trace) == run.submits
    ensures run.submits == 0 || run.submits <= limit + 1
  {
    if run.submits > 0 {
      var call := SubmitOf(net(prepares - 1).body.value, sign);
      SpacedFetches(call, Backoffs(run.submits - 1));
      assert run.trace[1..] == Submits(call, run.submits);
    }
  }

  /** The caller is told to reconcile this quote before preparing again. */
  predicate Marked(f: Failure, quoteId: string) {
    && f.ApiError?
    && StatusKey in f.details && f.details[StatusKey] == PendingReconcile
    && QuoteIdKey in f.details && f.details[QuoteIdKey] == OtherValue(quoteId)
  }

  lemma PendingIsMarked(f: Option<Failure>, quoteId: string)
    ensures Marked(Pending(f, quoteId), quoteId)
  {
  }

  lemma NoEarlierSubmitStop(net: Network, from: nat, limit: int, m: nat, n: nat)
    requires SubmitStops(net, from, limit, n) && 1 <= m < n
    ensures !SubmitStops(net, from, limit, m)
  {
    assert Undecided(net(from + m - 1));
  }

  /** `SubmitStops` pins the number of submits down. */
  lemma SubmitStopIsUnique(net: Network, from: nat, limit: int, m: nat, n: nat)
    requires SubmitStops(net, from, limit, m) && SubmitStops(net, from, limit, n)
    ensures m == n
  {
    if 1 <= m < n {
      NoEarlierSubmitStop(net, from, limit, m, n);
    } else if 1 <= n < m {
      NoEarlierSubmitStop(net, from, limit, n, m);
    }
  }

  lemma OutcomeOf(net: Network, retries: int, passphrase: Result<string, Failure>,
                  sign: string -> Result<string, Failure>, limit: int, prepares: nat, run: Run)
    requires Executed(net, retries, passphrase, sign, limit, prepares, run)
    requires Armed(net(prepares - 1), passphrase, sign)
    ensures SubmitStops(net, prepares, limit, run.submits)
    ensures var p := net(prepares - 1).body.value;
            run.submits > 0 ==> run.outcome == Reported(p, Verdict(net(prepares + run.submits - 1), p.quoteId))
  {
  }

  /** A reply that is not ambiguous ends the submits there and then, and decides the outcome. */
  lemma FirstDecisionEndsIt(net: Network, retries: int, passphrase: Result<string, Failure>,
                            sign: string -> Result<string, Failure>, limit: int, prepares: nat, run: Run, k: nat)
    requires Executed(net, retries, passphrase, sign, limit, prepares, run)
    requires Armed(net(prepares - 1), passphrase, sign)
    requires k <= limit && !Undecided(net(prepares + k))
    requires forall j {:trigger net(j)} :: prepares <= j < prepares + k ==> Undecided(net(j))
    ensures run.submits == k + 1
    ensures var p := net(prepares - 1).body.value;
            run.outcome == Reported(p, Verdict(net(prepares + k), p.quoteId))
  {
    OutcomeOf(net, retries, passphrase, sign, limit, prepares, run);
    SubmitStopIsUnique(net, prepares, limit, run.submits, k + 1);
  }

  /**
   * Nothing but ambiguous replies means exactly limit + 1 submits and the last reply's error,
   * marked for reconciliation with the prepared quote.
   */
  lemma ExhaustionIsMarked(net: Network, retries: int, passphrase: Result<string, Failure>,
                           sign: string -> Result<string, Failure>, limit: nat, prepares: nat, run: Run, last: Failure)
    requires Executed(net, retries, passphrase, sign, limit, prepares, run)
    requires Armed(net(prepares - 1), passphrase, sign)
    requires forall j {:trigger net(j)} :: prepares <= j <= prepares + limit ==> Undecided(net(j))
    requires Settle(net(prepares + limit)) == Err(last)
    ensures run.submits == limit + 1
    ensures var quoteId := net(prepares - 1).body.value.quoteId;
            run.outcome == Err(Pending(Some(last), quoteId)) && Marked(Pending(Some(last), quoteId), quoteId)
  {
    OutcomeOf(net, retries, passphrase, sign, limit, prepares, run);
    assert Undecided(net(prepares + limit));
    SubmitStopIsUnique(net, prepares, limit, run.submits, limit + 1);
    PendingIsMarked(Some(last), net(prepares - 1).body.value.quoteId);
  }

  /** With a negative limit the signed envelope is never sent, yet the caller is told to reconcile it. */
  lemma NegativeLimitNeverSubmits(net: Network, retries: int, passphrase: Result<string, Failure>,
                                  sign: string -> Result<string, Failure>, limit: int, prepares: nat, run: Run)
    requires Executed(net, retries, passphrase, sign, limit, prepares, run) && limit < 0
    requires Armed(net(prepares - 1), passphrase, sign)
    ensures run.trace == [Signed(net(prepares - 1).body.value.envelope.value)]
    ensures run.outcome.Err? && Marked(run.outcome.error, net(prepares - 1).body.value.quoteId)
  {
    PendingIsMarked(None, net(prepares - 1).body.value.quoteId);
  }

  // ---------------------------------------------------------------- told by the replies alone

  /** The network failed, or the server could not tell whether the transaction went out. */
  predicate Unclear(reply: Reply) {
    || reply.Lost?
    || (reply.Refused? && (reply.httpStatus in {0, 503} || reply.code in {Some(DependencyUnavailable), Some(NetworkError)}))
  }

  lemma UnclearIsUndecided(reply: Reply)
    ensures Undecided(reply) <==> Unclear(reply)
  {
  }

  lemma AllUnclear(net: Network, from: nat, to: nat)
    requires forall j {:trigger net(j)} :: from <= j < to ==> Unclear(net(j))
    ensures forall j {:trigger net(j)} :: from <= j < to ==> Undecided(net(j))
  {
    forall j {:trigger net(j)} | from <= j < to ensures Undecided(net(j)) {
      UnclearIsUndecided(net(j));
    }
  }

  /** The error still says what the reply said. */
  ghost predicate Reports(f: Failure, reply: Reply) {
    && f.ApiError?
    && match reply
       case Lost(reason) => f.status == 0 && f.code == NetworkError && f.message == Text(reason)
       case Refused(status, code, _, extra, _) =>
         && f.status == status && f.code == (if code.Some? then code.value else UnknownError)
         && forall k :: k in extra && k != StatusKey && k != QuoteIdKey ==> k in f.details && f.details[k] == extra[k]
       case _ => false
  }

  /** Nothing but unclear replies: limit + 1 submits of the one envelope and an error to reconcile. */
  lemma UnclearRepliesExhaust(net: Network, retries: int, passphrase: Result<string, Failure>,
                              sign: string -> Result<string, Failure>, limit: nat, prepares: nat, run: Run)
    requires Executed(net, retries, passphrase, sign, limit, prepares, run)
    requires Armed(net(prepares - 1), passphrase, sign)
    requires forall j {:trigger net(j)} :: prepares <= j < prepares + limit + 1 ==> Unclear(net(j))
    ensures run.submits == limit + 1
    ensures run.outcome.Err? && Marked(run.outcome.error, net(prepares - 1).body.value.quoteId)
    ensures Reports(run.outcome.error, net(prepares + limit))
  {
    AllUnclear(net, prepares, prepares + limit + 1);
    assert Undecided(net(prepares + limit));
    var last := Settle(net(prepares + limit)).error;
    ExhaustionIsMarked(net, retries, passphrase, sign, limit, prepares, run, last);
  }

  /** What the caller gets from a reply that is clear. */
  ghost predicate EndsWith(run: Run, p: Payload, reply: Reply) {
    match reply
    case Lost(_) => false
    case Refused(status, code, text, extra, _) =>
      run.outcome == Err(ApiError(status, if code.Some? then code.value else UnknownError,
                                  if text.None? || |text.value| == 0 then HttpStatus(status) else Text(text.value), extra))
    case Garbled(reason) => run.outcome == Err(Foreign(reason))
    case Answered(Some(answer)) => run.outcome == Ok(Execution(p, answer.txHash, answer.status))
    case Answered(None) =>
      && run.outcome.Err? && Marked(run.outcome.error, p.quoteId)
      && run.outcome.error.status == 503 && run.outcome.error.code == DependencyUnavailable
  }

  /**
   * The first clear reply ends it: a payload is the result, a refusal or a garbled answer is passed on
   * as it came, and only an empty answer is left to be reconciled.
   */
  lemma FirstClearReplyEnds(net: Network, retries: int, passphrase: Result<string, Failure>,
                            sign: string -> Result<string, Failure>, limit: int, prepares: nat, run: Run, k: nat)
    requires Executed(net, retries, passphrase, sign, limit, prepares, run)
    requires Armed(net(prepares - 1), passphrase, sign)
    requires k <= limit && !Unclear(net(prepares + k))
    requires forall j {:trigger net(j)} :: prepares <= j < prepares + k ==> Unclear(net(j))
    ensures run.submits == k + 1 && EndsWith(run, net(prepares - 1).body.value, net(prepares + k))
  {
    AllUnclear(net, prepares, prepares + k);
    UnclearIsUndecided(net(prepares + k));
    FirstDecisionEndsIt(net, retries, passphrase, sign, limit, prepares, run, k);
    VerdictIs(net(prepares + k), net(prepares - 1).body.value, run);
  }

  lemma VerdictIs(reply: Reply, p: Payload, run: Run)
    requires !Unclear(reply) && run.outcome == Reported(p, Verdict(reply, p.quoteId))
    ensures EndsWith(run, p, reply)
  {
    PendingIsMarked(None, p.quoteId);
  }

  /** Replies after which a request is worth repeating: none at all, too many requests, or a server error. */
  predicate Passing(reply: Reply) {
    reply.Lost? || (reply.Refused? && (reply.httpStatus == 429 || 500 <= reply.httpStatus))
  }

  /** A request goes on past passing replies only, and as long as its retries last. */
  lemma RequestGoesOnIff(net: Network, from: nat, left: nat, n: nat)
    requires StopsAt(net, from, left, n)
    ensures n == left + 1 || (n <= left && !Passing(net(from + n - 1)))
    ensures forall j {:trigger net(j)} :: from <= j < from + n - 1 ==> Passing(net(j))
  {
  }

  function Doublings(n: nat): nat {
    if n == 0 then 1 else 2 * Doublings(n - 1)
  }

  /** The pause is what the server asks for, else half a second doubled per attempt. */
  lemma PauseIs(reply: Reply, n: nat)
    ensures Pause(reply, n) == if reply.Refused? && reply.retryAfter > 0.0 then 1000.0 * reply.retryAfter
                               else (500 * Doublings(n)) as real
  {
    BackoffDoubles(n);
  }

  lemma {:induction false} BackoffDoubles(n: nat)
    ensures Backoff(n) == (500 * Doublings(n)) as real
    decreases n
  {
    if n > 0 {
      BackoffDoubles(n - 1);
    }
  }
}
