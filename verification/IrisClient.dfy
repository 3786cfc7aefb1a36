/** The IRIS client: token state, re-authentication and the retry loop, over an arbitrary stream of server outcomes. */
module IrisClient {
  import opened GoBasics
  import opened Arithmetic

  const SECOND: int := 1_000_000_000

  /** What an option can set; durations are in nanoseconds. */
  datatype Config = Config(tcc: string, credentials: bool, maxRetries: int, baseDelay: int64, maxDelay: int64)

  const DEFAULT_BASE_DELAY: int64 := 500_000_000
  const DEFAULT_MAX_DELAY: int64 := 30 * SECOND

  // ----- the outside world

  /** A Retry-After header: absent, delta-seconds, an HTTP date so many nanoseconds ahead, or anything else. */
  datatype Header = Missing | Seconds(n: int64) | Date(ahead: int) | Unreadable

  /** parseRetryAfter, in nanoseconds; a huge number of seconds wraps. */
  function RetryDelay(h: Header): int {
    match h
    case Missing => 0
    case Seconds(n) => if n >= 0 then Wrap64(n * SECOND) else 0
    case Date(ahead) => if ahead > 0 then ahead else 0
    case Unreadable => 0
  }

  datatype Reply = Broken(cause: string) | Answered(status: int, body: string, retryAfter: Header)

  datatype Login = LoginBroken(cause: string)
                 | LoginAnswered(status: int, body: string, readable: bool, token: string, expiresIn: int64)

  /** Everything the client cannot decide itself: replies, token grants, cancelled waits, the clock and the dice. */
  datatype World = World(
    replies: nat -> Reply, logins: nat -> Login, cancelled: nat -> Option<string>, clock: nat -> int, dice: nat -> nat)

  datatype Error = MissingCredentials | MissingTCC | MissingJWT | Transport(cause: string) | AuthFailed(body: string)
                 | Api(status: int, body: string, retryAfter: int) | UnreadableGrant | EmptyGrant
                 | Cancelled(cause: string) | ReauthFailed(reason: Error) | RateLimited(reason: Error)
                 | Panicked // not returned: the random draw of a wait panics, which unwinds the call

  datatype Answer = Answer(body: string, status: int, err: Option<Error>)

  // ----- classifying outcomes

  predicate Unauthorized(r: Reply, credentials: bool) {
    r.Answered? && r.status == 401 && credentials
  }

  predicate Busy(r: Reply) {
    r.Answered? && (r.status == 429 || (r.status >= 500 && r.status != 501))
  }

  /** The reply ends the loop: it is neither a transport error, nor busy, nor a 401 the client can act on. */
  predicate Decisive(r: Reply, credentials: bool) {
    r.Answered? && !Unauthorized(r, credentials) && !Busy(r)
  }

  function Classify(r: Reply): Answer
    requires r.Answered?
  {
    Answer(r.body, r.status, if r.status >= 400 then Some(Api(r.status, r.body, 0)) else None)
  }

  /** What is returned once the last attempt has not been decisive. */
  function GiveUp(r: Reply, lastRetryAfter: int): Answer {
    match r
    case Broken(cause) => Answer("", 0, Some(Transport(cause)))
    case Answered(status, body, _) =>
      var e := Api(status, body, lastRetryAfter);
      Answer("", status, Some(if status == 429 then RateLimited(e) else e))
  }

  predicate Granted(g: Login) {
    g.LoginAnswered? && g.status < 400 && g.readable && g.token != ""
  }

  function Refusal(g: Login): Error
    requires !Granted(g)
  {
    match g
    case LoginBroken(cause) => Transport(cause)
    case LoginAnswered(status, body, readable, _, _) =>
      if status == 401 then AuthFailed(body)
      else if status >= 400 then Api(status, body, 0)
      else if !readable then UnreadableGrant
      else EmptyGrant
  }

  function Lifetime(expiresIn: int64): int {
    Wrap64((if expiresIn <= 0 then 3600 else expiresIn) * SECOND)
  }

  // ----- backoff

  /** The delay before the cap, on unbounded integers. */
  function Doubled(base: int, attempt: nat): int {
    base * Pow2(attempt)
  }

  /** Go's `base << attempt` on an int64, then the cap. */
  function Backoff(base: int, cap: int64, attempt: nat): int {
    var exp := Wrap64(Doubled(base, attempt));
    if exp <= 0 || exp > cap then cap else exp
  }

  /** The bound the documentation promises: the doubled delay up to the cap. */
  function CappedExponential(base: int, cap: int64, attempt: nat): int {
    if Doubled(base, attempt) <= cap then Doubled(base, attempt) else cap
  }

  /** rand.Int63n panics on a bound that is not positive; the bound drawn under is one more, wrapped. */
  predicate DrawPanics(base: int, cap: int64, attempt: nat) {
    Wrap64(Backoff(base, cap, attempt) + 1) <= 0
  }

  /** The wait draws, because the server named no delay, and the draw panics. */
  predicate WaitPanics(config: Config, attempt: nat, retryAfter: int) {
    retryAfter <= 0 && DrawPanics(config.baseDelay, config.maxDelay, attempt)
  }

  function Wait(config: Config, attempt: nat, retryAfter: int, die: nat): int
    requires !WaitPanics(config, attempt, retryAfter)
  {
    if retryAfter > 0 then retryAfter
    else die % Wrap64(Backoff(config.baseDelay, config.maxDelay, attempt) + 1)
  }

  /** The draw panics exactly under a negative cap, or under the largest int64 when that is the bound. */
  lemma DrawPanicsIff(base: int, cap: int64, attempt: nat)
    ensures DrawPanics(base, cap, attempt) <==>
            var exp := Wrap64(Doubled(base, attempt));
            cap < 0 || (cap == MAX_INT64 && (exp <= 0 || exp == MAX_INT64))
  {
    var exp, bound := Wrap64(Doubled(base, attempt)), Backoff(base, cap, attempt);
    hide Doubled;
    if bound == MAX_INT64 {
      assert Wrap64(MAX_INT64 + 1) == MIN_INT64;
    } else {
      WrapInRange(bound + 1);
    }
  }

  /** Under a cap of minus one nanosecond, and under the largest int64 once a shift of 64 has left nothing, a wait
      without Retry-After panics. */
  lemma PanicExamples()
    ensures DrawPanics(DEFAULT_BASE_DELAY, -1, 0) && DrawPanics(DEFAULT_BASE_DELAY, MAX_INT64, 64)
  {
    Powers();
    hide Pow2;
    assert Doubled(DEFAULT_BASE_DELAY, 64) == 0 + TWO_64 * DEFAULT_BASE_DELAY;
    WrapOfCongruent(0, DEFAULT_BASE_DELAY);
    DrawPanicsIff(DEFAULT_BASE_DELAY, -1, 0);
    DrawPanicsIff(DEFAULT_BASE_DELAY, MAX_INT64, 64);
  }

  lemma DoubledIsPositive(base: int, attempt: nat)
    requires base > 0
    ensures Doubled(base, attempt) > 0
  {
  }

  /** Whatever the durations and the attempt: the bound is within the cap, positive if the cap is, and never above
      the doubled delay. */
  lemma BackoffIsBounded(base: int, cap: int64, attempt: nat)
    ensures Backoff(base, cap, attempt) <= cap && (cap >= 0 ==> Backoff(base, cap, attempt) >= 0)
    ensures cap > 0 ==> Backoff(base, cap, attempt) > 0
    ensures base > 0 ==> Backoff(base, cap, attempt) <= CappedExponential(base, cap, attempt)
  {
    if base > 0 { DoubledIsPositive(base, attempt); }
    hide Doubled;
  }

  /** The bound is the promised one exactly when the shift has not wrapped to a positive delay below the cap. */
  lemma BackoffIsCappedExponentialIff(base: int, cap: int64, attempt: nat)
    requires base > 0
    ensures Backoff(base, cap, attempt) == CappedExponential(base, cap, attempt) <==>
            var exp := Wrap64(Doubled(base, attempt));
            Doubled(base, attempt) <= MAX_INT64 || exp <= 0 || exp >= cap
  {
    DoubledIsPositive(base, attempt);
    hide Doubled;
  }

  /** A base of 2^34 + 1 ns at attempt 30 wraps to about 1.07 s, below the default cap of 30 s. */
  lemma ShortBackoffExample()
    ensures Backoff(0x4_0000_0001, DEFAULT_MAX_DELAY, 30) == 0x4000_0000
    ensures CappedExponential(0x4_0000_0001, DEFAULT_MAX_DELAY, 30) == DEFAULT_MAX_DELAY
  {
    assert Pow2(30) == 0x4000_0000 by { Powers(); }
    assert Doubled(0x4_0000_0001, 30) == 0x4000_0000 + TWO_64 * 1;
    WrapOfCongruent(0x4000_0000, 1);
    WrapInRange(0x4000_0000);
  }

  lemma LowPowers()
    ensures Pow2(8) == 0x100 && Pow2(21) == 0x20_0000 && Pow2(32) == 0x1_0000_0000
  {
    assert Pow2(5) == 32;
    assert Pow2(8) == 0x100;
    Pow2Adds(8, 8);
    Pow2Adds(16, 5);
    Pow2Adds(16, 16);
  }

  lemma Powers()
    ensures Pow2(8) == 0x100 && Pow2(21) == 0x20_0000 && Pow2(30) == 0x4000_0000 && Pow2(43) == 0x800_0000_0000
    ensures Pow2(63) == MAX_INT64 + 1 && Pow2(64) == TWO_64
  {
    LowPowers();
    assert Pow2(32) == 4 * Pow2(30);
    Pow2Adds(21, 21);
    assert Pow2(43) == 2 * Pow2(42);
    Pow2Adds(32, 32);
    assert Pow2(64) == 2 * Pow2(63);
  }

  // ----- products of whole numbers

  lemma Regroup(x: int, y: int, z: int)
    ensures (x * y) * z == x * (y * z) == (x * z) * y
  {
  }

  lemma Expand(f: int, g: int, m: int, k: int)
    ensures f * (m + g * k) == f * m + (f * g) * k
  {
  }

  lemma Multiple(f: int, q: int)
    requires f > 0
    ensures q > 0 ==> f * q >= f
    ensures q <= 0 ==> f * q <= 0
  {
  }

  lemma Below(f: int, m: int, n: int)
    requires f > 0 && m < n
    ensures f * m < f * n
  {
  }

  /** A wrapped multiple of a power of two up to 2^64 is a multiple of it. */
  lemma WrapKeepsFactor(e: nat, m: int) returns (q: int)
    requires e <= 64
    ensures Wrap64(Pow2(e) * m) == Pow2(e) * q
  {
    var k := WrapIsCongruent(Pow2(e) * m);
    Powers();
    Pow2Adds(e, 64 - e);
    hide Pow2, Wrap64;
    q := m + Pow2(64 - e) * k;
    Expand(Pow2(e), Pow2(64 - e), m, k);
  }

  lemma SmallShift(m: nat, r: nat, e: nat)
    requires 0 < m < Pow2(r) && e + r <= 63
    ensures 0 < Pow2(e) * m <= MAX_INT64
  {
    hide Pow2;
    Powers();
    Pow2Adds(e, r);
    Pow2Grows(e + r, 63);
    Multiple(Pow2(e), m);
    Below(Pow2(e), m, Pow2(r));
  }

  lemma LargeShift(m: nat, f: nat, e: nat)
    requires 0 < m && f <= e && f <= 64
    ensures Pow2(e) * m >= Pow2(f)
    ensures Wrap64(Pow2(e) * m) <= 0 || Wrap64(Pow2(e) * m) >= Pow2(f)
  {
    Pow2Adds(f, e - f);
    hide Pow2, Wrap64;
    var n := Pow2(e - f) * m;
    Regroup(Pow2(f), Pow2(e - f), m);
    Multiple(Pow2(e - f), m);
    Multiple(Pow2(f), n);
    var q := WrapKeepsFactor(f, n);
    Multiple(Pow2(f), q);
  }

  /** A base of 2^z times a number of at most r bits never wraps short under a cap of at most 2^(64 - r): its bound is
      the promised one at every attempt. */
  lemma BackoffNeverWrapsShort(base: int, cap: int64, attempt: nat, z: nat, m: nat, r: nat)
    requires base == Pow2(z) * m && 0 < m < Pow2(r) && r <= 64 && cap <= Pow2(64 - r)
    ensures Backoff(base, cap, attempt) == CappedExponential(base, cap, attempt)
  {
    var e := z + attempt;
    Pow2Adds(z, attempt);
    Regroup(Pow2(z), m, Pow2(attempt));
    assert Doubled(base, attempt) == Pow2(e) * m;
    hide Pow2, Wrap64, Doubled;
    if e + r <= 63 {
      SmallShift(m, r, e);
      WrapInRange(Pow2(e) * m);
    } else {
      LargeShift(m, 64 - r, e);
    }
  }

  /** The default durations never wrap short: the bound is min(30 s, 0.5 s x 2^attempt) at every attempt. */
  lemma DefaultBackoff(attempt: nat)
    ensures Backoff(DEFAULT_BASE_DELAY, DEFAULT_MAX_DELAY, attempt) ==
            CappedExponential(DEFAULT_BASE_DELAY, DEFAULT_MAX_DELAY, attempt)
    ensures !DrawPanics(DEFAULT_BASE_DELAY, DEFAULT_MAX_DELAY, attempt)
  {
    Powers();
    hide Pow2;
    // 0.5 s is 2^8 x 1953125 ns, a number of 21 bits
    BackoffNeverWrapsShort(DEFAULT_BASE_DELAY, DEFAULT_MAX_DELAY, attempt, 8, 1_953_125, 21);
    DrawPanicsIff(DEFAULT_BASE_DELAY, DEFAULT_MAX_DELAY, attempt);
    hide *;
  }

  /** A wait honours the server's Retry-After exactly, and is otherwise within the cap and the doubled delay. */
  lemma WaitIsBounded(config: Config, attempt: nat, retryAfter: int, die: nat)
    requires !WaitPanics(config, attempt, retryAfter)
    ensures retryAfter > 0 ==> Wait(config, attempt, retryAfter, die) == retryAfter
    ensures retryAfter <= 0 ==> 0 <= Wait(config, attempt, retryAfter, die) <= config.maxDelay
    ensures retryAfter <= 0 && config.baseDelay > 0 ==>
      Wait(config, attempt, retryAfter, die) <= CappedExponential(config.baseDelay, config.maxDelay, attempt)
  {
    var bound := Backoff(config.baseDelay, config.maxDelay, attempt);
    BackoffIsBounded(config.baseDelay, config.maxDelay, attempt);
    if retryAfter <= 0 {
      DrawPanicsIff(config.baseDelay, config.maxDelay, attempt);
      if bound < MAX_INT64 { WrapInRange(bound + 1); }
    }
    hide Backoff, CappedExponential, Doubled;
  }

  // ----- one call, from where it finds the streams

  predicate Retriable(r: Reply, credentials: bool) {
    Busy(r) && !Unauthorized(r, credentials)
  }

  predicate NeedsWait(r: Reply) {
    r.Broken? || Busy(r)
  }

  /** The wait the server asked for, zero after a transport error. */
  function Asked(r: Reply): int {
    if r.Broken? then 0 else RetryDelay(r.retryAfter)
  }

  predicate Admitted(tcc: string, g: Login) {
    tcc != "" && Granted(g)
  }

  function Refused(tcc: string, g: Login): Answer
    requires !Admitted(tcc, g)
  {
    Answer("", 0, Some(ReauthFailed(if tcc == "" then MissingTCC else Refusal(g))))
  }

  /** A call: the client's configuration, the world, the token held, and how many requests, logins and waits came
        before. */
  datatype Call = Call(config: Config, world: World, held: string, requests: nat, logins: nat, waits: nat) {

    function Reply(i: nat): Reply {
      world.replies(requests + i)
    }

    /** How many of the first n replies ask for a new token. */
    function Refusals(n: nat): (r: nat)
      ensures r <= n
    {
      if n == 0 then 0 else Refusals(n - 1) + if Unauthorized(Reply(n - 1), config.credentials) then 1 else 0
    }

    /** The login that the i-th reply triggers if it asks for one. */
    function Login(i: nat): Login {
      world.logins(logins + Refusals(i))
    }

    /** The token in force after n replies: the latest grant, or the one held at the start. */
    function TokenAfter(n: nat): string {
      if n == 0 then held
      else if Unauthorized(Reply(n - 1), config.credentials) && Granted(Login(n - 1)) then Login(n - 1).token
      else TokenAfter(n - 1)
    }

    /** The Retry-After of the latest busy reply among n, zero if there was none. */
    function LatestDelay(n: nat): int {
      if n == 0 then 0
      else if Retriable(Reply(n - 1), config.credentials) then RetryDelay(Reply(n - 1).retryAfter)
      else LatestDelay(n - 1)
    }

    /** The wait after the i-th reply panics. */
    predicate Panics(i: nat) {
      NeedsWait(Reply(i)) && WaitPanics(config, i, Asked(Reply(i)))
    }

    /** The waits after the first n replies. */
    function WaitsAfter(n: nat): (ws: seq<int>)
      ensures |ws| <= n
    {
      if n == 0 then []
      else
        var before := WaitsAfter(n - 1);
        if NeedsWait(Reply(n - 1)) && !Panics(n - 1)
        then before + [Wait(config, n - 1, Asked(Reply(n - 1)), world.dice(waits + |before|))]
        else before
    }

    /** The cancellation, if any, of the wait after the i-th reply. */
    function Cancellation(i: nat): Option<string> {
      world.cancelled(waits + |WaitsAfter(i)|)
    }

    function Budget(): nat {
      if config.maxRetries < 0 then 0 else config.maxRetries + 1
    }

    /** The i-th reply ends the call before its budget does: it is decisive, its login is refused, or its wait
        panics or is cancelled. */
    predicate Stops(i: nat) {
      || Decisive(Reply(i), config.credentials)
      || (Unauthorized(Reply(i), config.credentials) && !Admitted(config.tcc, Login(i)))
      || (NeedsWait(Reply(i)) && (Panics(i) || Cancellation(i).Some?))
    }

    /** The first of n replies that ends the call, n if none does. */
    function FirstStop(n: nat): (d: nat)
      ensures d <= n
      ensures d < n ==> Stops(d)
      ensures forall i :: 0 <= i < d ==> !Stops(i)
    {
      if n == 0 then 0
      else
        var d := FirstStop(n - 1);
        if d < n - 1 || Stops(n - 1) then d else n
    }

    /** How many requests the call sends: up to the first that ends it, or the whole budget. */
    function Requests(): (n: nat)
      ensures n <= Budget()
    {
      if Budget() == 0 then 0 else FirstStop(Budget() - 1) + 1
    }

    /** The attempts that may have been followed by a wait: the last of the budget is not. */
    function Attempts(): nat {
      if Requests() > 0 && Requests() == Budget() then Requests() - 1 else Requests()
    }

    /** What is returned when the call ends at its i-th reply. */
    function EndAt(i: nat): Answer {
      if Decisive(Reply(i), config.credentials) then Classify(Reply(i))
      else if Unauthorized(Reply(i), config.credentials) && !Admitted(config.tcc, Login(i)) then
        Refused(config.tcc, Login(i))
      else if i >= config.maxRetries then GiveUp(Reply(i), LatestDelay(i + 1))
      else if Panics(i) then Answer("", 0, Some(Panicked))
      else if Cancellation(i).None? then GiveUp(Reply(i), LatestDelay(i + 1))
      else Answer("", 0, Some(Cancelled(Cancellation(i).value)))
    }

    function Outcome(): Answer {
      if Requests() == 0 then Answer("", 0, Some(Api(0, "", 0))) else EndAt(Requests() - 1)
    }
  }

  datatype Verdict = Return(ans: Answer) | Stop | Retry

  /** What a turn decides, from the reply, the login it may trigger and the wait it may be cancelled in. */
  function TurnVerdict(config: Config, reply: Reply, login: Login, panics: bool, cancelled: Option<string>, last: bool)
    : Verdict
  {
    if Decisive(reply, config.credentials) then Return(Classify(reply))
    else if Unauthorized(reply, config.credentials) && !Admitted(config.tcc, login) then
      Return(Refused(config.tcc, login))
    else if last then if reply.Broken? then Return(GiveUp(reply, 0)) else Stop
    else if NeedsWait(reply) && panics then Return(Answer("", 0, Some(Panicked)))
    else if NeedsWait(reply) && cancelled.Some? then Return(Answer("", 0, Some(Cancelled(cancelled.value))))
    else Retry
  }

  /** A turn's verdict is the call's: it returns or stops where the call ends, and retries where it does not. */
  lemma VerdictEnds(call: Call, n: nat, v: Verdict)
    requires n <= call.config.maxRetries
    requires v == TurnVerdict(call.config, call.Reply(n), call.Login(n), call.Panics(n), call.Cancellation(n),
                              n == call.config.maxRetries)
    ensures v.Return? ==> v.ans == call.EndAt(n)
    ensures v.Stop? ==> call.Reply(n).Answered? && call.EndAt(n) == GiveUp(call.Reply(n), call.LatestDelay(n + 1))
    ensures !v.Retry? ==> call.Stops(n) || n == call.config.maxRetries
    ensures v.Retry? ==> n < call.config.maxRetries && !call.Stops(n)
    ensures !v.Return? && Unauthorized(call.Reply(n), call.config.credentials) ==>
      Admitted(call.config.tcc, call.Login(n))
  {
    hide Call.Refusals, Call.WaitsAfter, Call.LatestDelay, Call.Login, Call.Reply, Call.Cancellation, Call.Panics,
      Classify, Refused;
  }

  lemma GivesUp(r: Reply, delay: int)
    requires r.Answered?
    ensures var e := Api(r.status, r.body, delay);
      GiveUp(r, delay) == Answer("", r.status, Some(if r.status == 429 then RateLimited(e) else e))
  {
  }

  /** A call ends at the first reply that ends it, or at the end of its budget. */
  lemma EndsHere(call: Call, n: nat)
    requires n <= call.config.maxRetries && forall i :: 0 <= i < n ==> !call.Stops(i)
    requires call.Stops(n) || n == call.config.maxRetries
    ensures call.Requests() == n + 1 && call.Outcome() == call.EndAt(n)
  {
    hide Call.Stops, Call.EndAt;
    var d := call.FirstStop(call.Budget() - 1);
  }

  lemma NeverStarts(call: Call)
    requires call.config.maxRetries < 0
    ensures call.Requests() == 0 && call.Attempts() == 0 && call.Outcome() == Answer("", 0, Some(Api(0, "", 0)))
  {
  }

  lemma AttemptsAt(call: Call, n: nat)
    requires call.Requests() == n + 1
    ensures call.Attempts() == if n == call.config.maxRetries then n else n + 1
  {
    hide Call.Requests;
  }

  /** Where the streams stand at a turn. */
  lemma StreamsAt(call: Call, n: nat)
    ensures call.Reply(n) == call.world.replies(call.requests + n)
    ensures call.Login(n) == call.world.logins(call.logins + call.Refusals(n))
    ensures call.Cancellation(n) == call.world.cancelled(call.waits + |call.WaitsAfter(n)|)
  {
    hide Call.Refusals, Call.WaitsAfter;
  }

  /** How one more turn extends the token, the login count, the delay and the waits. */
  lemma NextTurn(call: Call, n: nat)
    ensures var r, g := call.Reply(n), call.Login(n);
      && call.Refusals(n + 1) == call.Refusals(n) + (if Unauthorized(r, call.config.credentials) then 1 else 0)
      && call.TokenAfter(n + 1) ==
         (if Unauthorized(r, call.config.credentials) && Granted(g) then g.token else call.TokenAfter(n))
      && call.LatestDelay(n + 1) ==
         (if Retriable(r, call.config.credentials) then RetryDelay(r.retryAfter) else call.LatestDelay(n))
      && call.WaitsAfter(n + 1) == call.WaitsAfter(n) +
         (if NeedsWait(r) && !call.Panics(n)
          then [Wait(call.config, n, Asked(r), call.world.dice(call.waits + |call.WaitsAfter(n)|))] else [])
  {
  }

  lemma NoAttempts(call: Call)
    ensures call.Refusals(0) == 0 && call.TokenAfter(0) == call.held
    ensures call.LatestDelay(0) == 0 && call.WaitsAfter(0) == []
  {
  }

  // ----- the client

  class Client {
    const config: Config
    const world: World

    var jwt: string
    /** The token's expiry in nanoseconds since Go's zero time; zero if unknown. */
    var jwtExpiry: int

    /** The token each request carried, the logins made, the waits slept and the clock readings, so far. */
    var sent: seq<string>
    var logins: nat
    var waits: seq<int>
    var ticks: nat

    constructor (config: Config, world: World)
      ensures jwt == "" && jwtExpiry == 0 && sent == [] && logins == 0 && waits == [] && ticks == 0
      ensures this.config == config && this.world == world
    {
      this.config, this.world := config, world;
      jwt, jwtExpiry, sent, logins, waits, ticks := "", 0, [], 0, [], 0;
    }

    method SetJWT(token: string, expiry: int)
      modifies this`jwt, this`jwtExpiry
      ensures jwt == token && jwtExpiry == expiry
    {
      jwt, jwtExpiry := token, expiry;
    }

    /** Exchanges the credentials for a token. A refusal leaves the held token alone. */
    method Authenticate() returns (err: Option<Error>)
      modifies this`jwt, this`jwtExpiry, this`logins, this`ticks
      ensures !config.credentials ==> err == Some(MissingCredentials)
      ensures config.credentials && config.tcc == "" ==> err == Some(MissingTCC)
      ensures !config.credentials || config.tcc == "" ==> logins == old(logins)
      ensures config.credentials && config.tcc != "" ==> logins == old(logins) + 1
      ensures err.None? <==> config.credentials && config.tcc != "" && Granted(world.logins(old(logins)))
      ensures config.credentials && config.tcc != "" && !Granted(world.logins(old(logins))) ==>
        err == Some(Refusal(world.logins(old(logins))))
      ensures err.Some? ==> jwt == old(jwt) && jwtExpiry == old(jwtExpiry) && ticks == old(ticks)
      ensures err.None? ==>
        && var g := world.logins(old(logins));
        jwt == g.token != "" && jwtExpiry == world.clock(old(ticks)) + Lifetime(g.expiresIn) && ticks == old(ticks) + 1
    {
      if !config.credentials {
        return Some(MissingCredentials);
      }
      if config.tcc == "" {
        return Some(MissingTCC);
      }
      var reply := world.logins(logins);
      logins := logins + 1;
      if reply.LoginBroken? {
        return Some(Transport(reply.cause));
      }
      if reply.status == 401 {
        return Some(AuthFailed(reply.body));
      }
      if reply.status >= 400 {
        return Some(Api(reply.status, reply.body, 0));
      }
      if !reply.readable {
        return Some(UnreadableGrant);
      }
      if reply.token == "" {
        return Some(EmptyGrant);
      }
      jwt := reply.token;
      jwtExpiry := world.clock(ticks) + Lifetime(reply.expiresIn);
      ticks := ticks + 1;
      return None;
    }

    /** A token is held, and it is not within a minute of expiry. */
    predicate Usable()
      reads this
    {
      jwt != "" && (jwtExpiry == 0 || world.clock(ticks) + 60 * SECOND <= jwtExpiry)
    }

    /** Keeps a usable token, or fetches one; without credentials a stale token is dropped. */
    method EnsureAuthenticated() returns (err: Option<Error>)
      modifies this`jwt, this`jwtExpiry, this`logins, this`ticks
      ensures err.None? ==> jwt != ""
      ensures old(Usable()) ==>
        err.None? && jwt == old(jwt) && jwtExpiry == old(jwtExpiry) && logins == old(logins)
      ensures !old(Usable()) && !config.credentials ==> err == Some(MissingJWT) && jwt == "" && logins == old(logins)
      ensures !old(Usable()) && config.credentials ==> logins == old(logins) + if config.tcc == "" then 0 else 1
      ensures !old(Usable()) && config.credentials && Admitted(config.tcc, world.logins(old(logins))) ==>
        && err.None? && jwt == world.logins(old(logins)).token && ticks > 0
        && jwtExpiry == world.clock(ticks - 1) + Lifetime(world.logins(old(logins)).expiresIn)
      ensures !old(Usable()) && config.credentials && !Admitted(config.tcc, world.logins(old(logins))) ==>
        && err == Some(if config.tcc == "" then MissingTCC else Refusal(world.logins(old(logins))))
        && jwt == old(jwt) && jwtExpiry == old(jwtExpiry)
    {
      if jwt == "" {
        if !config.credentials {
          return Some(MissingJWT);
        }
        err := Authenticate();
        return;
      }
      if jwtExpiry != 0 {
        var now := world.clock(ticks);
        ticks := ticks + 1;
        if now + 60 * SECOND > jwtExpiry {
          if config.credentials {
            err := Authenticate();
            return;
          }
          jwt := "";
          return Some(MissingJWT);
        }
      }
      return None;
    }

    /** Waits before the next attempt, unless the context ends first; the draw may panic before any wait. */
    method SleepBackoff(attempt: nat, retryAfter: int) returns (err: Option<Error>)
      modifies this`waits
      ensures WaitPanics(config, attempt, retryAfter) ==> err == Some(Panicked) && waits == old(waits)
      ensures !WaitPanics(config, attempt, retryAfter) ==>
        && waits == old(waits) + [Wait(config, attempt, retryAfter, world.dice(|old(waits)|))]
        && err == match world.cancelled(|old(waits)|) case None => None case Some(cause) => Some(Cancelled(cause))
    {
      hide Wrap64, Doubled;
      var k := |waits|;
      var wait;
      if retryAfter > 0 {
        wait := retryAfter;
      } else {
        var exp := Wrap64(Doubled(config.baseDelay, attempt));
        if exp <= 0 || exp > config.maxDelay {
          exp := config.maxDelay;
        }
        var bound := Wrap64(exp as int + 1);
        if bound <= 0 {
          return Some(Panicked);
        }
        wait := world.dice(k) % bound;
      }
      waits := waits + [wait];
      match world.cancelled(k)
      case Some(cause) => return Some(Cancelled(cause));
      case None => return None;
    }

    /** One request with the token held now. */
    method DoOnce() returns (reply: Reply)
      modifies this`sent
      ensures reply == world.replies(|old(sent)|) && sent == old(sent) + [jwt]
    {
      reply := world.replies(|sent|);
      sent := sent + [jwt];
    }

    /** One turn of the loop: a request, then a login, a wait, or an end. */
    method Turn(attempt: nat) returns (reply: Reply, verdict: Verdict)
      requires attempt <= config.maxRetries
      modifies this`jwt, this`jwtExpiry, this`sent, this`logins, this`waits, this`ticks
      ensures reply == world.replies(|old(sent)|) && sent == old(sent) + [old(jwt)]
      ensures !Unauthorized(reply, config.credentials) ==> jwt == old(jwt) && logins == old(logins)
      ensures Unauthorized(reply, config.credentials) ==>
        && logins == old(logins) + (if config.tcc == "" then 0 else 1)
        && jwt == if Admitted(config.tcc, world.logins(old(logins))) then world.logins(old(logins)).token else old(jwt)
      ensures waits == old(waits) + if NeedsWait(reply) && attempt < config.maxRetries
                                       && !WaitPanics(config, attempt, Asked(reply))
                                    then [Wait(config, attempt, Asked(reply), world.dice(|old(waits)|))] else []
      ensures verdict == TurnVerdict(config, reply, world.logins(old(logins)),
                                     NeedsWait(reply) && WaitPanics(config, attempt, Asked(reply)),
                                     world.cancelled(|old(waits)|), attempt == config.maxRetries)
    {
      hide Refusal, RetryDelay, Wait, WaitPanics;
      reply := DoOnce();
      if reply.Broken? {
        if attempt == config.maxRetries {
          return reply, Return(Answer("", 0, Some(Transport(reply.cause))));
        }
        var waitErr := SleepBackoff(attempt, 0);
        return reply, if waitErr.Some? then Return(Answer("", 0, waitErr)) else Retry;
      }
      if reply.status == 401 && config.credentials {
        var err := Authenticate();
        if err.Some? {
          return reply, Return(Answer("", 0, Some(ReauthFailed(err.value))));
        }
        return reply, if attempt == config.maxRetries then Stop else Retry;
      }
      if reply.status == 429 || (reply.status >= 500 && reply.status != 501) {
        if attempt == config.maxRetries {
          return reply, Stop;
        }
        var waitErr := SleepBackoff(attempt, RetryDelay(reply.retryAfter));
        return reply, if waitErr.Some? then Return(Answer("", 0, waitErr)) else Retry;
      }
      if reply.status >= 400 {
        return reply, Return(Answer(reply.body, reply.status, Some(Api(reply.status, reply.body, 0))));
      }
      return reply, Return(Answer(reply.body, reply.status, None));
    }

    /** The call about to be made. */
    ghost function NextCall(): Call
      reads this
    {
      Call(config, world, jwt, |sent|, logins, |waits|)
    }

    /** The retry loop: it sends what the call sends, sleeps what it sleeps and returns what it returns. */
    method DoRequest() returns (ans: Answer)
      modifies this`jwt, this`jwtExpiry, this`sent, this`logins, this`waits, this`ticks
      // the requests: as many as the call makes, each with the token in force when it is sent
      ensures |sent| == |old(sent)| + old(NextCall()).Requests() && old(sent) == sent[..|old(sent)|]
      ensures forall i :: 0 <= i < old(NextCall()).Requests() ==> sent[|old(sent)| + i] == old(NextCall()).TokenAfter(i)
      // one login for each 401 that credentials can answer
      ensures logins == old(logins) +
              if config.tcc == "" then 0 else old(NextCall()).Refusals(old(NextCall()).Requests())
      // a wait after every transport error and busy reply but the last attempt's
      ensures waits == old(waits) + old(NextCall()).WaitsAfter(old(NextCall()).Attempts())
      ensures ans == old(NextCall()).Outcome()
    {
      hide Call.Refusals, Call.TokenAfter, Call.LatestDelay, Call.WaitsAfter, Call.Login, Call.Cancellation,
        Call.EndAt, Call.Outcome, Call.Requests, Call.Stops, Wait, RetryDelay, Granted, Refusal, Asked, GiveUp,
        Classify, TurnVerdict, NeedsWait, Decisive;
      ghost var call := NextCall();
      var lastStatus, lastBody, lastRetryAfter := 0, "", 0;
      NoAttempts(call);
      if config.maxRetries < 0 {
        NeverStarts(call);
      }
      var attempt := 0;
      while attempt <= config.maxRetries
        invariant 0 <= attempt <= config.maxRetries || (attempt == 0 && config.maxRetries < 0)
        invariant config.maxRetries < 0 ==> lastStatus == 0 && lastBody == ""
        invariant |sent| == call.requests + attempt && old(sent) == sent[..call.requests]
        invariant forall i :: 0 <= i < attempt ==> !call.Stops(i)
        invariant forall i :: 0 <= i < attempt ==> sent[call.requests + i] == call.TokenAfter(i)
        invariant jwt == call.TokenAfter(attempt)
        invariant logins == call.logins + call.Refusals(attempt)
        invariant config.tcc == "" ==> call.Refusals(attempt) == 0
        invariant lastRetryAfter == call.LatestDelay(attempt)
        invariant waits == old(waits) + call.WaitsAfter(attempt)
      {
        NextTurn(call, attempt);
        StreamsAt(call, attempt);
        var reply, verdict := Turn(attempt);
        VerdictEnds(call, attempt, verdict);
        if !verdict.Retry? {
          EndsHere(call, attempt);
          AttemptsAt(call, attempt);
        }
        if verdict.Return? {
          return verdict.ans;
        }
        if reply.Answered? {
          lastStatus, lastBody := reply.status, reply.body;
        }
        if Retriable(reply, config.credentials) {
          lastRetryAfter := RetryDelay(reply.retryAfter);
        }
        if verdict.Stop? {
          GivesUp(reply, lastRetryAfter);
          break;
        }
        attempt := attempt + 1;
      }
      var apiErr := Api(lastStatus, lastBody, lastRetryAfter);
      if lastStatus == 429 {
        return Answer("", lastStatus, Some(RateLimited(apiErr)));
      }
      return Answer("", lastStatus, Some(apiErr));
    }

    /** A call as the client's own methods make it: a transmitter code, a usable token, then the retry loop. */
    method Fetch() returns (ans: Answer)
      modifies this`jwt, this`jwtExpiry, this`sent, this`logins, this`waits, this`ticks
      ensures |old(sent)| <= |sent| && old(sent) == sent[..|old(sent)|]
      ensures |sent| <= |old(sent)| + if config.maxRetries < 0 then 0 else config.maxRetries + 1
      ensures forall i :: |old(sent)| <= i < |sent| ==> sent[i] != ""
      ensures config.tcc == "" ==> ans.err == Some(MissingTCC) && sent == old(sent)
      ensures !config.credentials && !old(Usable()) && config.tcc != "" ==>
        ans.err == Some(MissingJWT) && sent == old(sent)
    {
      hide Call.TokenAfter, Call.Outcome, Call.WaitsAfter, Call.Refusals, Call.Requests, Call.Attempts, Granted;
      if config.tcc == "" {
        return Answer("", 0, Some(MissingTCC));
      }
      var err := EnsureAuthenticated();
      if err.Some? {
        return Answer("", 0, err);
      }
      ghost var call := NextCall();
      ans := DoRequest();
      forall i | call.requests <= i < |sent| ensures sent[i] != "" {
        var j := i - call.requests;
        assert sent[call.requests + j] == call.TokenAfter(j);
        TokensAreNotEmpty(call, j);
      }
    }
  }

  // ----- what the loop guarantees

  lemma {:induction false} TokensAreNotEmpty(call: Call, n: nat)
    requires call.held != ""
    ensures call.TokenAfter(n) != ""
  {
    hide Call.Login;
    if n > 0 {
      TokensAreNotEmpty(call, n - 1);
    }
  }

  /** Until the last turn, every 401 was answered by a granted login and every wait ran its time. */
  lemma EveryTurnButTheLastContinues(call: Call, i: nat)
    requires i + 1 < call.Requests()
    ensures !Decisive(call.Reply(i), call.config.credentials)
    ensures Unauthorized(call.Reply(i), call.config.credentials) ==> Admitted(call.config.tcc, call.Login(i))
    ensures NeedsWait(call.Reply(i)) ==> !call.Panics(i) && call.Cancellation(i).None?
  {
    assert !call.Stops(i);
  }

  /** A call that sends fewer requests than its budget ends in a decisive reply, a refused login, or a wait
      that panics or is cancelled. */
  lemma ShortCallsAreStopped(call: Call)
    requires call.Requests() < call.Budget()
    ensures var last := call.Requests() - 1;
      && last >= 0 && call.Stops(last)
      && (Decisive(call.Reply(last), call.config.credentials) ==> call.Outcome() == Classify(call.Reply(last)))
      && (NeedsWait(call.Reply(last)) ==>
            if call.Panics(last) then call.Outcome() == Answer("", 0, Some(Panicked))
            else call.Cancellation(last).Some?
                 && call.Outcome() == Answer("", 0, Some(Cancelled(call.Cancellation(last).value))))
      && (Unauthorized(call.Reply(last), call.config.credentials) ==>
            !Admitted(call.config.tcc, call.Login(last))
            && call.Outcome() == Refused(call.config.tcc, call.Login(last)))
  {
    hide Call.Reply, Call.Login, Call.Cancellation, Call.FirstStop, Classify, Refused, Call.LatestDelay;
  }

  /** The first decisive reply within the budget, or the budget if there is none. */
  function FirstDecisive(call: Call, budget: nat): (d: nat)
    ensures d <= budget
    ensures d < budget ==> Decisive(call.Reply(d), call.config.credentials)
    ensures forall i :: 0 <= i < d ==> !Decisive(call.Reply(i), call.config.credentials)
  {
    if budget == 0 then 0
    else
      var d := FirstDecisive(call, budget - 1);
      if d < budget - 1 || Decisive(call.Reply(budget - 1), call.config.credentials) then d else budget
  }

  /** The call was not cut short by a refused login or by a wait that panics or is cancelled. */
  predicate RanItsCourse(ans: Answer) {
    ans.err.Some? ==> !ans.err.value.Cancelled? && !ans.err.value.ReauthFailed? && !ans.err.value.Panicked?
  }

  lemma LastAnswer(call: Call)
    requires RanItsCourse(call.Outcome()) && call.Requests() > 0
    ensures var last := call.Requests() - 1;
      if Decisive(call.Reply(last), call.config.credentials) then call.Outcome() == Classify(call.Reply(last))
      else call.Requests() == call.Budget() &&
           call.Outcome() == GiveUp(call.Reply(last), call.LatestDelay(call.Requests()))
  {
    if call.Requests() < call.Budget() {
      ShortCallsAreStopped(call);
    }
    hide Call.FirstStop, Call.Requests, Call.Stops, Call.LatestDelay, Call.Reply, Call.Login, Call.Cancellation,
      Call.Panics, Classify, GiveUp;
  }

  lemma NoRequests(call: Call)
    ensures call.Requests() == 0 <==> call.Budget() == 0
  {
    hide Call.FirstStop;
  }

  lemma FirstDecisiveIs(call: Call, k: nat)
    requires k < call.Budget() && forall i :: 0 <= i < k ==> !Decisive(call.Reply(i), call.config.credentials)
    ensures Decisive(call.Reply(k), call.config.credentials) ==> FirstDecisive(call, call.Budget()) == k
    ensures !Decisive(call.Reply(k), call.config.credentials) && k + 1 == call.Budget() ==>
      FirstDecisive(call, call.Budget()) == call.Budget()
  {
    hide FirstDecisive, Decisive, Call.Reply;
    var d := FirstDecisive(call, call.Budget());
  }

  /** Unless a login is refused or a wait panics or is cancelled, the answer is the first decisive reply's, or the last
      reply's if none is. */
  lemma FirstDecisiveWins(call: Call)
    requires RanItsCourse(call.Outcome())
    ensures var budget, d := call.Budget(), FirstDecisive(call, call.Budget());
      && (d < budget ==> call.Requests() == d + 1 && call.Outcome() == Classify(call.Reply(d)))
      && (d == budget > 0 ==>
            call.Requests() == budget && call.Outcome() == GiveUp(call.Reply(budget - 1), call.LatestDelay(budget)))
  {
    hide *;
    var n := call.Requests();
    NoRequests(call);
    if n > 0 {
      LastAnswer(call);
      forall i | 0 <= i < n - 1 { EveryTurnButTheLastContinues(call, i); }
      FirstDecisiveIs(call, n - 1);
    }
  }

  /** The rate-limit error means that the budget ran out on a 429, and only that. */
  lemma RateLimitedMeansLast429(call: Call)
    ensures var n := call.Requests();
      (call.Outcome().err.Some? && call.Outcome().err.value.RateLimited?) <==>
      n > 0 && n == call.Budget() && call.Reply(n - 1).Answered? && call.Reply(n - 1).status == 429
  {
    if 0 < call.Requests() < call.Budget() {
      ShortCallsAreStopped(call);
    }
    hide Call.LatestDelay, Call.Refusals, Call.WaitsAfter, Call.FirstStop, Call.Requests, Call.Stops, Call.Cancellation,
      Call.Login, Call.Reply;
  }

  /** An answer without an error is a last reply below 400, and only that. */
  lemma SuccessIsDecisive(call: Call)
    ensures var n := call.Requests();
      call.Outcome().err.None? <==> n > 0 && call.Reply(n - 1).Answered? && call.Reply(n - 1).status < 400
  {
    hide Call.LatestDelay, Call.Refusals, Call.WaitsAfter, Call.FirstStop, Call.Requests, Call.Stops, Call.Cancellation,
      Call.Login, Call.Reply;
  }

  /** Every wait is a busy reply's own Retry-After, or within the configured cap. */
  lemma {:induction false} WaitsAreBounded(call: Call, n: nat, j: nat)
    requires j < |call.WaitsAfter(n)|
    ensures var wait := call.WaitsAfter(n)[j];
      && 0 <= wait
      && (wait <= call.config.maxDelay ||
          exists i :: 0 <= i < n && Busy(call.Reply(i)) && RetryDelay(call.Reply(i).retryAfter) == wait)
  {
    hide Wait, RetryDelay, Busy, Call.Reply;
    var before := call.WaitsAfter(n - 1);
    if j < |before| {
      WaitsAreBounded(call, n - 1, j);
    } else {
      var r := call.Reply(n - 1);
      WaitIsBounded(call.config, n - 1, Asked(r), call.world.dice(call.waits + |before|));
    }
  }

  // ----- the loop in status codes and nanoseconds

  /** A wait without Retry-After panics exactly under a negative cap, or under a cap of the largest int64 when the
        shifted base is not positive or is that very number. */
  lemma WaitPanicsIff(config: Config, attempt: nat, retryAfter: int)
    ensures WaitPanics(config, attempt, retryAfter) <==>
            && retryAfter <= 0
            && var exp := Wrap64(config.baseDelay * Pow2(attempt));
            config.maxDelay < 0 || (config.maxDelay == MAX_INT64 && (exp <= 0 || exp == MAX_INT64))
  {
    DrawPanicsIff(config.baseDelay, config.maxDelay, attempt);
    hide DrawPanics, Wrap64;
  }

  /** After a reply that no login can answer the call goes on exactly if attempts are left, the status is 429, 500 or
        502 and above, and the wait neither panics nor is cancelled. */
  lemma RetriedStatuses(call: Call, i: nat)
    requires i < call.Requests() && call.Reply(i).Answered?
    requires !(call.Reply(i).status == 401 && call.config.credentials)
    ensures i + 1 < call.Requests() <==>
            && i < call.config.maxRetries
            && (call.Reply(i).status == 429 || call.Reply(i).status == 500 || call.Reply(i).status >= 502)
            && !WaitPanics(call.config, i, RetryDelay(call.Reply(i).retryAfter))
            && call.Cancellation(i).None?
  {
    hide Call.Reply, Call.Cancellation, Call.FirstStop, Call.Login, WaitPanics, RetryDelay, Admitted;
    GoesOnIff(call, i);
  }

  /** After a transport error the call goes on exactly if attempts are left and the wait, which the server did not name,
      neither panics nor is cancelled. */
  lemma RetriedErrors(call: Call, i: nat)
    requires i < call.Requests() && call.Reply(i).Broken?
    ensures i + 1 < call.Requests() <==>
            i < call.config.maxRetries && !WaitPanics(call.config, i, 0) && call.Cancellation(i).None?
  {
    hide Call.Reply, Call.Cancellation, Call.FirstStop, Call.Login, WaitPanics, RetryDelay, Admitted;
    GoesOnIff(call, i);
  }

  /** After a 401 that credentials can answer the call goes on exactly if attempts are left and the login, made with a
      transmitter code, is answered below 400 with a readable token. */
  lemma RetriedLogins(call: Call, i: nat)
    requires i < call.Requests() && call.Reply(i).Answered?
    requires call.Reply(i).status == 401 && call.config.credentials
    ensures i + 1 < call.Requests() <==>
            && i < call.config.maxRetries && call.config.tcc != ""
            && call.Login(i).LoginAnswered? && call.Login(i).status < 400
            && call.Login(i).readable && call.Login(i).token != ""
  {
    hide Call.Reply, Call.Cancellation, Call.FirstStop, Call.Login, WaitPanics, RetryDelay;
    GoesOnIff(call, i);
  }

  lemma GoesOnIff(call: Call, i: nat)
    requires i < call.Requests()
    ensures i + 1 < call.Requests() <==> i < call.config.maxRetries && !call.Stops(i)
  {
    hide Call.Stops;
  }

  /** What the call returns after its last reply: the reply itself below 400, an error with its status and body at any
      other status that is not retried, and on the last attempt the error that a retried status stands for. */
  lemma LastStatusDecides(call: Call)
    requires call.Requests() > 0 && call.Reply(call.Requests() - 1).Answered?
    ensures var i := call.Requests() - 1;
      var r := call.Reply(i);
      !(r.status == 401 && call.config.credentials) ==>
        && (r.status < 400 ==> call.Outcome() == Answer(r.body, r.status, None))
        && ((400 <= r.status < 500 && r.status != 429) || r.status == 501 ==>
              call.Outcome() == Answer(r.body, r.status, Some(Api(r.status, r.body, 0))))
        && (i == call.config.maxRetries && r.status == 429 ==>
              call.Outcome() == Answer("", 429, Some(RateLimited(Api(429, r.body, RetryDelay(r.retryAfter))))))
        && (i == call.config.maxRetries && (r.status == 500 || r.status >= 502) ==>
              call.Outcome() == Answer("", r.status, Some(Api(r.status, r.body, RetryDelay(r.retryAfter)))))
  {
    hide Call.Reply, Call.Cancellation, Call.FirstStop, Call.Requests, Call.Login, WaitPanics, RetryDelay, Admitted,
      Refused;
  }

  /** What the call returns if its last attempt never got an answer. */
  lemma LastErrorDecides(call: Call)
    requires call.Requests() - 1 == call.config.maxRetries && call.Requests() > 0
    requires call.Reply(call.Requests() - 1).Broken?
    ensures call.Outcome() == Answer("", 0, Some(Transport(call.Reply(call.Requests() - 1).cause)))
  {
    hide Call.Reply, Call.Cancellation, Call.FirstStop, Call.Requests, Call.Login, WaitPanics, RetryDelay, Admitted,
      Refused;
  }

  /** What the call returns if a login ends it: why the login was refused, in the login's own terms. */
  lemma RefusedLoginDecides(call: Call)
    requires call.Requests() > 0 && call.Reply(call.Requests() - 1).Answered?
    requires call.Reply(call.Requests() - 1).status == 401 && call.config.credentials
    ensures var g := call.Login(call.Requests() - 1);
      && (call.config.tcc == "" ==> call.Outcome() == Answer("", 0, Some(ReauthFailed(MissingTCC))))
      && (call.config.tcc != "" && g.LoginBroken? ==>
            call.Outcome() == Answer("", 0, Some(ReauthFailed(Transport(g.cause)))))
      && (call.config.tcc != "" && g.LoginAnswered? ==>
            && (g.status == 401 ==> call.Outcome() == Answer("", 0, Some(ReauthFailed(AuthFailed(g.body)))))
            && (g.status >= 400 && g.status != 401 ==>
                  call.Outcome() == Answer("", 0, Some(ReauthFailed(Api(g.status, g.body, 0)))))
            && (g.status < 400 && !g.readable ==> call.Outcome() == Answer("", 0, Some(ReauthFailed(UnreadableGrant))))
            && (g.status < 400 && g.readable && g.token == "" ==>
                  call.Outcome() == Answer("", 0, Some(ReauthFailed(EmptyGrant)))))
  {
    hide Call.Reply, Call.Cancellation, Call.FirstStop, Call.Requests, Call.Login, WaitPanics, RetryDelay, GiveUp,
      Classify, Call.LatestDelay;
  }

  /** The first request carries the token held; a later one the token before it, or the token of the login that a 401
      has just triggered. */
  lemma TokensSent(call: Call, i: nat)
    requires i + 1 < call.Requests()
    ensures call.TokenAfter(0) == call.held
    ensures if call.Reply(i).Answered? && call.Reply(i).status == 401 && call.config.credentials
            then call.Login(i).LoginAnswered? && call.TokenAfter(i + 1) == call.Login(i).token
            else call.TokenAfter(i + 1) == call.TokenAfter(i)
  {
    EveryTurnButTheLastContinues(call, i);
    hide Call.Reply, Call.Login, Call.Requests, Call.Stops;
  }

  /** Each 401 makes one more login, and nothing else does. */
  lemma LoginsMade(call: Call, n: nat)
    ensures call.Refusals(0) == 0
    ensures call.Refusals(n + 1) == call.Refusals(n) +
            if call.Reply(n).Answered? && call.Reply(n).status == 401 && call.config.credentials then 1 else 0
  {
    hide Call.Reply;
  }

  /** A retried status with a Retry-After of n seconds is followed by a wait of n x 10^9 ns; with an HTTP date ahead, by
      a wait until then. */
  lemma RetryAfterIsSlept(call: Call, i: nat)
    requires call.Reply(i).Answered? && (call.Reply(i).status == 429 || call.Reply(i).status == 500
                                         || call.Reply(i).status >= 502)
    ensures match call.Reply(i).retryAfter
            case Seconds(n) => 0 < n && n * 1_000_000_000 <= MAX_INT64 ==>
              call.WaitsAfter(i + 1) == call.WaitsAfter(i) + [n * 1_000_000_000]
            case Date(ahead) => ahead > 0 ==> call.WaitsAfter(i + 1) == call.WaitsAfter(i) + [ahead]
            case _ => true
  {
    NextTurn(call, i);
    match call.Reply(i).retryAfter
    case Seconds(n) =>
      if 0 < n && n * SECOND <= MAX_INT64 { WrapInRange(n * SECOND); }
    case _ =>
    hide Call.Reply, Call.WaitsAfter, DrawPanics, Backoff, Wrap64;
  }

  /** Every other wait is drawn: a Retry-After that is missing, unreadable, zero or past names no delay. */
  lemma OtherwiseDrawn(h: Header)
    ensures h.Missing? || h.Unreadable? || (h.Seconds? && h.n <= 0) || (h.Date? && h.ahead <= 0) ==> RetryDelay(h) == 0
  {
  }

  lemma DrawIs(config: Config, attempt: nat, die: nat)
    requires !WaitPanics(config, attempt, 0)
    ensures Backoff(config.baseDelay, config.maxDelay, attempt) >= 0
    ensures Wait(config, attempt, 0, die) == die % (Backoff(config.baseDelay, config.maxDelay, attempt) + 1)
  {
    var bound := Backoff(config.baseDelay, config.maxDelay, attempt);
    BackoffIsBounded(config.baseDelay, config.maxDelay, attempt);
    DrawPanicsIff(config.baseDelay, config.maxDelay, attempt);
    if bound < MAX_INT64 { WrapInRange(bound + 1); }
    hide Backoff;
  }

  /** Full jitter: the draw can yield any wait from zero to the bound, and no other. */
  lemma FullJitter(config: Config, attempt: nat, wait: nat)
    requires !WaitPanics(config, attempt, 0)
    ensures wait <= Backoff(config.baseDelay, config.maxDelay, attempt) <==>
            exists die :: Wait(config, attempt, 0, die) == wait
  {
    hide *;
    var bound := Backoff(config.baseDelay, config.maxDelay, attempt);
    DrawIs(config, attempt, wait);
    if wait <= bound {
      assert Wait(config, attempt, 0, wait) == wait;
    } else {
      forall die ensures Wait(config, attempt, 0, die) != wait { DrawIs(config, attempt, die); }
    }
  }

  /** A grant of n seconds lasts n x 10^9 ns, an unlimited one an hour. */
  lemma LifetimeInSeconds(n: int64)
    ensures 0 < n && n * 1_000_000_000 <= MAX_INT64 ==> Lifetime(n) == n * 1_000_000_000
    ensures n <= 0 ==> Lifetime(n) == 3_600_000_000_000
  {
  }

  /** A token granted at time t for n seconds is used until a minute before it expires. */
  lemma TokenIsUsedUntil(client: Client, t: int, n: int64)
    requires client.jwt != "" && client.jwtExpiry == t + Lifetime(n) != 0
    requires 0 < n && n * 1_000_000_000 <= MAX_INT64
    ensures client.Usable() <==> client.world.clock(client.ticks) <= t + (n - 60) * 1_000_000_000
  {
    LifetimeInSeconds(n);
    hide Lifetime;
  }
}
