/** Routes, retries and the deadline of one gateway call (gateway_client/client.py, settings.py).
Time is exact and passes only in attempts, at most their allowance, and in sleeps. */
module Gateway {
  import opened Domain

  // ---------------------------------------------------------------- routes of an alias

  datatype Sensitivity = PublicData | Internal

  datatype AliasPolicy = AliasPolicy(
    modelVersion: string, modelName: Option<string>, publicModelName: Option<string>,
    fallbackModelName: Option<string>, publicFallbackModelName: Option<string>)

  function Or(a: Option<string>, b: Option<string>): Option<string> {
    if a.Some? then a else b
  }

  function RoutesFor(p: AliasPolicy, sensitivity: Sensitivity, alias: string): seq<(string, string)> {
    var open := sensitivity == PublicData && p.publicModelName.Some?;
    var primary := if open then p.publicModelName.value else if p.modelName.Some? then p.modelName.value else alias;
    var version := if open then p.publicModelName.value else p.modelVersion;
    var fallback := if sensitivity == PublicData then Or(p.publicFallbackModelName, p.fallbackModelName)
                    else p.fallbackModelName;
    [(primary, version)] + if fallback.Some? && fallback.value != primary then [(fallback.value, fallback.value)] else []
  }

  /** One route or two with different names; data that is not public never reaches a public model
  unless the policy names it for that data too. */
  lemma RoutesAreDistinct(p: AliasPolicy, sensitivity: Sensitivity, alias: string)
    ensures var routes := RoutesFor(p, sensitivity, alias);
            && 1 <= |routes| <= 2
            && (|routes| == 2 ==> routes[0].0 != routes[1].0)
            && (sensitivity == Internal ==>
                  routes == RoutesFor(p.(publicModelName := None, publicFallbackModelName := None), PublicData, alias))
            && (sensitivity == PublicData && p.publicModelName.Some? ==> routes[0] == (p.publicModelName.value, p.publicModelName.value))
            && (sensitivity == Internal || p.publicModelName == None ==>
                  && routes[0].1 == p.modelVersion && (p.modelName == None ==> routes[0].0 == alias)
                  && (p.modelName.Some? ==> routes[0].0 == p.modelName.value))
            && var fallback := if sensitivity == PublicData && p.publicFallbackModelName.Some? then p.publicFallbackModelName
                               else p.fallbackModelName;
               if fallback == None || fallback.value == routes[0].0 then |routes| == 1
               else |routes| == 2 && routes[1] == (fallback.value, fallback.value)
  {
  }

  // ---------------------------------------------------------------- the call

  datatype Settings = Settings(
    requestTimeout: real, totalTimeout: real, maxAttempts: nat, backoff: real, maxRetryDelay: real)

  predicate ValidSettings(c: Settings) {
    0.0 < c.requestTimeout && 0.0 < c.totalTimeout && 1 <= c.maxAttempts <= 6 && 0.0 <= c.backoff && 0.0 < c.maxRetryDelay
  }

  /** How an attempt that answers in time ends. */
  datatype Answer =
    | Completed(withinTokens: bool)
    | Retryable(hint: Option<real>)
    | NotRetryable
    | InvalidResponse
    | CassetteDiffers

  /** What the k-th attempt would do, given all the time it wants. */
  datatype Reply = Reply(answer: Answer, duration: real)

  type Oracle = nat -> Reply

  ghost predicate Sensible(oracle: Oracle) {
    forall k :: oracle(k).duration >= 0.0
                && (oracle(k).answer.Retryable? && oracle(k).answer.hint.Some? ==> oracle(k).answer.hint.value >= 0.0)
  }

  datatype Attempt = Attempt(route: nat, start: real, allowance: real)

  datatype Verdict = Succeeded | OverTokens | Rejected | Invalid | CassetteMismatch | DeadlineExceeded | Unavailable

  datatype Loop = Loop(route: nat, onRoute: nat, now: real, log: seq<Attempt>)

  function Smaller(a: real, b: real): real {
    if a <= b then a else b
  }

  function Doubled(x: real, n: nat): real {
    if n == 0 then x else 2.0 * Doubled(x, n - 1)
  }

  /** The pause after the n-th failed attempt of a route. */
  function Pause(c: Settings, hint: Option<real>, n: nat): real
    requires n >= 1
  {
    if hint.Some? then hint.value else Smaller(Doubled(c.backoff, n - 1), c.maxRetryDelay)
  }

  datatype Next = Stop(verdict: Verdict) | NextRoute | RetryAfter(pause: real)

  /** What follows a retryable failure, `onRoute` attempts into the route, at time `t`. */
  function AfterFailure(c: Settings, routes: nat, route: nat, onRoute: nat, hint: Option<real>, t: real): Next
    requires onRoute >= 1
  {
    if onRoute >= c.maxAttempts then NextRoute
    else
      var pause := Pause(c, hint, onRoute);
      if pause > c.maxRetryDelay then NextRoute
      else if route < routes - 1 && c.totalTimeout - t <= c.requestTimeout + pause then NextRoute
      else if pause >= c.totalTimeout - t then Stop(DeadlineExceeded)
      else RetryAfter(pause)
  }

  /** One attempt within its allowance: when it ends, and how. */
  function Try(reply: Reply, allowance: real): (real, Answer) {
    if reply.duration >= allowance then (allowance, Retryable(None)) else (reply.duration, reply.answer)
  }

  function Settled(answer: Answer): Option<Verdict> {
    match answer
    case Completed(within) => Some(if within then Succeeded else OverTokens)
    case NotRetryable => Some(Rejected)
    case InvalidResponse => Some(Invalid)
    case CassetteDiffers => Some(CassetteMismatch)
    case Retryable(_) => None
  }

  /** The rest of the call from the top of its inner loop. */
  function Call(c: Settings, routes: nat, oracle: Oracle, s: Loop): (Verdict, seq<Attempt>)
    decreases routes - s.route, c.maxAttempts - s.onRoute
  {
    if s.route >= routes then (Unavailable, s.log)
    else
      var remaining := c.totalTimeout - s.now;
      if remaining <= 0.0 then (DeadlineExceeded, s.log)
      else
        var allowance := Smaller(remaining, c.requestTimeout);
        var log := s.log + [Attempt(s.route, s.now, allowance)];
        var (spent, answer) := Try(oracle(|s.log|), allowance);
        var verdict := Settled(answer);
        if verdict.Some? then (verdict.value, log)
        else
          match AfterFailure(c, routes, s.route, s.onRoute + 1, answer.hint, s.now + spent)
          case Stop(v) => (v, log)
          case NextRoute => Call(c, routes, oracle, Loop(s.route + 1, 0, s.now + spent, log))
          case RetryAfter(pause) =>
            if s.onRoute + 1 >= c.maxAttempts then (Unavailable, log) // AfterFailure never asks for it
            else Call(c, routes, oracle, Loop(s.route, s.onRoute + 1, s.now + spent + pause, log))
  }

  const START := Loop(0, 0, 0.0, [])

  method InvokeCore(c: Settings, routes: nat, oracle: Oracle) returns (verdict: Verdict, log: seq<Attempt>)
    requires ValidSettings(c)
    ensures (verdict, log) == Call(c, routes, oracle, START)
  {
    log := [];
    var now := 0.0;
    for index := 0 to routes
      invariant Call(c, routes, oracle, Loop(index, 0, now, log)) == Call(c, routes, oracle, START)
    {
      var onRoute := 0;
      var leave := false;
      while !leave
        invariant onRoute <= c.maxAttempts && (!leave ==> onRoute < c.maxAttempts)
        invariant Call(c, routes, oracle, if leave then Loop(index + 1, 0, now, log) else Loop(index, onRoute, now, log))
               == Call(c, routes, oracle, START)
        decreases c.maxAttempts - onRoute, if leave then 0 else 1
      {
        var remaining := c.totalTimeout - now;
        if remaining <= 0.0 {
          return DeadlineExceeded, log;
        }
        var allowance := Smaller(remaining, c.requestTimeout);
        var reply := oracle(|log|);
        log := log + [Attempt(index, now, allowance)];
        onRoute := onRoute + 1;
        var (spent, answer) := Try(reply, allowance);
        now := now + spent;
        var settled := Settled(answer);
        if settled.Some? {
          return settled.value, log;
        }
        match AfterFailure(c, routes, index, onRoute, answer.hint, now) {
          case Stop(v) => return v, log;
          case NextRoute => leave := true;
          case RetryAfter(pause) => now := now + pause;
        }
      }
    }
    verdict := Unavailable;
  }

  // ---------------------------------------------------------------- deadlines and budgets

  predicate WithinDeadline(c: Settings, a: Attempt) {
    0.0 <= a.start < c.totalTimeout && 0.0 < a.allowance <= c.requestTimeout && a.start + a.allowance <= c.totalTimeout
  }

  /** `m` attempts on each of `n` routes. */
  function Budget(n: nat, m: nat): nat {
    if n == 0 then 0 else m + Budget(n - 1, m)
  }

  predicate InOrder(log: seq<Attempt>) {
    forall i, j | 0 <= i < j < |log| ::
      log[i].route <= log[j].route && log[i].start <= log[j].start
  }

  predicate LoopInv(c: Settings, routes: nat, s: Loop) {
    && s.route <= routes && s.onRoute <= c.maxAttempts && 0.0 <= s.now
    && (if s.route < routes then s.onRoute < c.maxAttempts else s.onRoute == 0)
    && (forall a <- s.log :: WithinDeadline(c, a) && a.route <= s.route && a.start <= s.now)
    && InOrder(s.log)
  }

  lemma AppendAttempt(c: Settings, routes: nat, s: Loop, allowance: real, next: Loop)
    requires LoopInv(c, routes, s) && s.route < routes && s.now < c.totalTimeout
    requires allowance == Smaller(c.totalTimeout - s.now, c.requestTimeout) && 0.0 < c.requestTimeout
    requires next.log == s.log + [Attempt(s.route, s.now, allowance)] && s.now <= next.now
    requires s.route <= next.route <= routes && next.onRoute <= c.maxAttempts
    requires if next.route < routes then next.onRoute < c.maxAttempts else next.onRoute == 0
    ensures LoopInv(c, routes, next)
  {
  }

  lemma PausePositive(c: Settings, hint: Option<real>, n: nat)
    requires ValidSettings(c) && n >= 1 && (hint.Some? ==> hint.value >= 0.0)
    ensures Pause(c, hint, n) >= 0.0
  {
    DoubledPositive(c.backoff, n - 1);
  }

  lemma DoubledPositive(x: real, n: nat)
    requires x >= 0.0
    ensures Doubled(x, n) >= 0.0
  {
  }

  lemma {:induction false} TryBounds(reply: Reply, allowance: real)
    requires reply.duration >= 0.0 && allowance >= 0.0
    ensures 0.0 <= Try(reply, allowance).0 <= allowance
    ensures Try(reply, allowance).1.Retryable? && Try(reply, allowance).1.hint.Some? ==> Try(reply, allowance).1 == reply.answer
  {
  }

  /** What a call may add to the attempts of a loop. */
  predicate Bounded(c: Settings, routes: nat, s: Loop, log: seq<Attempt>) {
    && s.log <= log && InOrder(log)
    && (forall a <- log :: WithinDeadline(c, a))
    && s.route <= routes
    && |log| <= |s.log| + Budget(routes - s.route, c.maxAttempts) - s.onRoute
  }

  /** The loop after one failed attempt, if it goes on. */
  function Following(c: Settings, routes: nat, oracle: Oracle, s: Loop): Option<Loop> {
    if s.route >= routes || c.totalTimeout - s.now <= 0.0 then None
    else
      var allowance := Smaller(c.totalTimeout - s.now, c.requestTimeout);
      var log := s.log + [Attempt(s.route, s.now, allowance)];
      var (spent, answer) := Try(oracle(|s.log|), allowance);
      if Settled(answer).Some? then None
      else
        match AfterFailure(c, routes, s.route, s.onRoute + 1, answer.hint, s.now + spent)
        case Stop(_) => None
        case NextRoute => Some(Loop(s.route + 1, 0, s.now + spent, log))
        case RetryAfter(pause) => Some(Loop(s.route, s.onRoute + 1, s.now + spent + pause, log))
  }

  lemma {:induction false} CallUnfolds(c: Settings, routes: nat, oracle: Oracle, s: Loop)
    requires ValidSettings(c)
    ensures var next := Following(c, routes, oracle, s);
            if next.Some? then Call(c, routes, oracle, s) == Call(c, routes, oracle, next.value)
            else var log := Call(c, routes, oracle, s).1;
                 log == s.log || (s.route < routes && s.now < c.totalTimeout
                                  && log == s.log + [Attempt(s.route, s.now, Smaller(c.totalTimeout - s.now, c.requestTimeout))])
  {
  }

  lemma {:induction false} FollowingKeeps(c: Settings, routes: nat, oracle: Oracle, s: Loop)
    requires ValidSettings(c) && Sensible(oracle) && LoopInv(c, routes, s) && Following(c, routes, oracle, s).Some?
    ensures var next := Following(c, routes, oracle, s).value;
            && LoopInv(c, routes, next) && |next.log| == |s.log| + 1 && s.log <= next.log
            && ((next.route == s.route + 1 && next.onRoute == 0) || (next.route == s.route && next.onRoute == s.onRoute + 1))
            && s.route < routes
  {
    var allowance := Smaller(c.totalTimeout - s.now, c.requestTimeout);
    TryBounds(oracle(|s.log|), allowance);
    var (spent, answer) := Try(oracle(|s.log|), allowance);
    PausePositive(c, answer.hint, s.onRoute + 1);
    AppendAttempt(c, routes, s, allowance, Following(c, routes, oracle, s).value);
    hide LoopInv, Try, Pause;
  }

  lemma LastAttempt(c: Settings, routes: nat, s: Loop, log: seq<Attempt>)
    requires ValidSettings(c) && LoopInv(c, routes, s)
    requires log == s.log || (s.route < routes && s.now < c.totalTimeout
                              && log == s.log + [Attempt(s.route, s.now, Smaller(c.totalTimeout - s.now, c.requestTimeout))])
    ensures Bounded(c, routes, s, log)
  {
    assert s.route < routes ==> Budget(routes - s.route, c.maxAttempts) >= c.maxAttempts;
    if log != s.log {
      AppendAttempt(c, routes, s, Smaller(c.totalTimeout - s.now, c.requestTimeout), Loop(s.route, s.onRoute, s.now, log));
    }
  }

  lemma BoundedBefore(c: Settings, routes: nat, s: Loop, next: Loop, log: seq<Attempt>)
    requires Bounded(c, routes, next, log) && s.route < routes && s.onRoute < c.maxAttempts
    requires |next.log| == |s.log| + 1 && s.log <= next.log
    requires (next.route == s.route + 1 && next.onRoute == 0) || (next.route == s.route && next.onRoute == s.onRoute + 1)
    ensures Bounded(c, routes, s, log)
  {
    hide InOrder, WithinDeadline;
    assert Budget(routes - s.route, c.maxAttempts) == c.maxAttempts + Budget(routes - s.route - 1, c.maxAttempts);
  }

  lemma {:induction false} CallIsBounded(c: Settings, routes: nat, oracle: Oracle, s: Loop)
    requires ValidSettings(c) && Sensible(oracle) && LoopInv(c, routes, s)
    ensures Bounded(c, routes, s, Call(c, routes, oracle, s).1)
    decreases routes - s.route, c.maxAttempts - s.onRoute
  {
    hide Call, Following, Bounded;
    CallUnfolds(c, routes, oracle, s);
    var next := Following(c, routes, oracle, s);
    if next.Some? {
      FollowingKeeps(c, routes, oracle, s);
      CallIsBounded(c, routes, oracle, next.value);
      BoundedBefore(c, routes, s, next.value, Call(c, routes, oracle, s).1);
    } else {
      LastAttempt(c, routes, s, Call(c, routes, oracle, s).1);
    }
  }

  lemma BudgetIsProduct(n: nat, m: nat)
    ensures Budget(n, m) == n * m
  {
  }

  /** Every attempt of a call starts before the deadline and may not run past it, attempts come in
  route and time order, and there are never more than the attempts allowed per route. */
  lemma {:induction false} CallKeepsDeadline(c: Settings, routes: nat, oracle: Oracle)
    requires ValidSettings(c) && Sensible(oracle)
    ensures var log := Call(c, routes, oracle, START).1;
            && (forall a <- log :: WithinDeadline(c, a)) && InOrder(log)
            && |log| <= routes * c.maxAttempts
  {
    hide Call, WithinDeadline, Budget;
    CallIsBounded(c, routes, oracle, START);
    BudgetIsProduct(routes, c.maxAttempts);
  }

  // ---------------------------------------------------------------- the fallback is never starved

  predicate Reached(log: seq<Attempt>, route: nat) {
    exists a <- log :: a.route == route
  }

  /** The primary settled the call: it answered for good, or not in a retryable way. */
  predicate SettledByAnswer(v: Verdict) {
    v in {Succeeded, OverTokens, Rejected, Invalid, CassetteMismatch}
  }

  lemma {:induction false} FallbackStarts(c: Settings, oracle: Oracle, s: Loop)
    requires ValidSettings(c) && s.route == 1 && s.now < c.totalTimeout
    ensures Reached(Call(c, 2, oracle, s).1, 1)
    decreases c.maxAttempts - s.onRoute
  {
    var a := Attempt(1, s.now, Smaller(c.totalTimeout - s.now, c.requestTimeout));
    CallUnfolds(c, 2, oracle, s);
    assert (s.log + [a])[|s.log|] == a;
    var next := Following(c, 2, oracle, s);
    if next.Some? {
      LogKept(c, 2, oracle, next.value);
      assert Call(c, 2, oracle, s).1[|s.log|] == a;
    } else {
      StartsWithAttempt(c, 2, oracle, s);
    }
  }

  lemma {:induction false} StartsWithAttempt(c: Settings, routes: nat, oracle: Oracle, s: Loop)
    requires s.route < routes && s.now < c.totalTimeout && Following(c, routes, oracle, s) == None
    ensures Call(c, routes, oracle, s).1
         == s.log + [Attempt(s.route, s.now, Smaller(c.totalTimeout - s.now, c.requestTimeout))]
  {
  }

  lemma {:induction false} LogKept(c: Settings, routes: nat, oracle: Oracle, s: Loop)
    requires ValidSettings(c)
    ensures s.log <= Call(c, routes, oracle, s).1
    decreases routes - s.route, c.maxAttempts - s.onRoute
  {
    hide Call;
    CallUnfolds(c, routes, oracle, s);
    var next := Following(c, routes, oracle, s);
    if next.Some? {
      LogKept(c, routes, oracle, next.value);
    }
  }

  /** On the primary, with more than one request's time left, a failure leaves time for the fallback. */
  lemma {:induction false} PrimaryLeavesTime(c: Settings, oracle: Oracle, s: Loop)
    requires ValidSettings(c) && Sensible(oracle) && s.route == 0
    requires c.totalTimeout - s.now > c.requestTimeout
    ensures var next := Following(c, 2, oracle, s);
            if next == None then SettledByAnswer(Call(c, 2, oracle, s).0)
            else if next.value.route == 1 then next.value.now < c.totalTimeout
            else next.value.route == 0 && c.totalTimeout - next.value.now > c.requestTimeout
  {
    var allowance := Smaller(c.totalTimeout - s.now, c.requestTimeout);
    TryBounds(oracle(|s.log|), allowance);
    var (spent, answer) := Try(oracle(|s.log|), allowance);
    if answer.Retryable? {
      PausePositive(c, answer.hint, s.onRoute + 1);
    }
    hide Pause, Try;
  }

  lemma {:induction false} PrimaryGivesWay(c: Settings, oracle: Oracle, s: Loop)
    requires ValidSettings(c) && Sensible(oracle) && s.route == 0
    requires c.totalTimeout - s.now > c.requestTimeout
    ensures var (v, log) := Call(c, 2, oracle, s); SettledByAnswer(v) || Reached(log, 1)
    decreases c.maxAttempts - s.onRoute
  {
    hide Call, Reached, Following;
    PrimaryLeavesTime(c, oracle, s);
    CallUnfolds(c, 2, oracle, s);
    var next := Following(c, 2, oracle, s);
    if next.Some? {
      if next.value.route == 1 {
        FallbackStarts(c, oracle, next.value);
      } else {
        FollowingAdvances(c, 2, oracle, s);
        PrimaryGivesWay(c, oracle, next.value);
      }
    }
  }

  lemma {:induction false} FollowingAdvances(c: Settings, routes: nat, oracle: Oracle, s: Loop)
    requires Following(c, routes, oracle, s).Some?
    ensures var next := Following(c, routes, oracle, s).value;
            s.route < next.route <= routes || (next.route == s.route < routes && s.onRoute < next.onRoute <= c.maxAttempts)
  {
  }

  /** A configured fallback always gets at least one attempt when the primary fails only retryably,
  provided the total timeout exceeds one request's timeout. */
  lemma {:induction false} FallbackIsTried(c: Settings, oracle: Oracle)
    requires ValidSettings(c) && Sensible(oracle) && c.totalTimeout > c.requestTimeout
    ensures var (v, log) := Call(c, 2, oracle, START); SettledByAnswer(v) || Reached(log, 1)
  {
    PrimaryGivesWay(c, oracle, START);
    hide Call;
  }

  /** Without that proviso a silent primary uses up the whole deadline and the fallback gets nothing. */
  lemma {:induction false} FallbackMayStarve(c: Settings, oracle: Oracle)
    requires ValidSettings(c) && c.totalTimeout <= c.requestTimeout && oracle(0).duration >= c.totalTimeout
    ensures Call(c, 2, oracle, START) == (DeadlineExceeded, [Attempt(0, 0.0, c.totalTimeout)])
  {
    PausePositive(c, None, 1);
    var starved := Loop(1, 0, c.totalTimeout, [Attempt(0, 0.0, c.totalTimeout)]);
    assert AfterFailure(c, 2, 0, 1, None, c.totalTimeout) == NextRoute;
    assert Smaller(c.totalTimeout - 0.0, c.requestTimeout) == c.totalTimeout;
    assert START.log + starved.log == starved.log;
    assert Following(c, 2, oracle, START) == Some(starved);
    CallUnfolds(c, 2, oracle, START);
    assert Call(c, 2, oracle, starved) == (DeadlineExceeded, starved.log);
  }

  // ---------------------------------------------------------------- the history of a call

  /** Without a hint the pause starts at the back-off and doubles up to the longest one. */
  lemma PauseMeans(c: Settings, n: nat, hint: real)
    requires n >= 1
    ensures Pause(c, Some(hint), n) == hint
    ensures Pause(c, None, 1) == if c.backoff < c.maxRetryDelay then c.backoff else c.maxRetryDelay
    ensures ValidSettings(c) ==>
              var doubled := 2.0 * Pause(c, None, n);
              Pause(c, None, n + 1) == if doubled < c.maxRetryDelay then doubled else c.maxRetryDelay
  {
    if ValidSettings(c) {
      DoubledPositive(c.backoff, n - 1);
    }
  }

  /** What came back from the k-th attempt within its allowance. */
  function Heard(oracle: Oracle, log: seq<Attempt>, k: nat): Option<Answer>
    requires k < |log|
  {
    if oracle(k).duration < log[k].allowance then Some(oracle(k).answer) else None
  }

  function EndOf(oracle: Oracle, log: seq<Attempt>, k: nat): real
    requires k < |log|
  {
    log[k].start + if Heard(oracle, log, k).Some? then oracle(k).duration else log[k].allowance
  }

  /** Silence, or an answer that says to try again. */
  predicate TriesAgain(heard: Option<Answer>) {
    heard == None || heard.value.Retryable?
  }

  function HintIn(heard: Option<Answer>): Option<real> {
    if heard.Some? && heard.value.Retryable? then heard.value.hint else None
  }

  function Tries(log: seq<Attempt>, route: nat): nat {
    if log == [] then 0 else Tries(log[..|log| - 1], route) + if log[|log| - 1].route == route then 1 else 0
  }

  /** The pause the k-th attempt asks for. */
  function Wait(c: Settings, oracle: Oracle, log: seq<Attempt>, k: nat): real
    requires k < |log|
  {
    Pause(c, HintIn(Heard(oracle, log, k)), 1 + Tries(log[..k], log[k].route))
  }

  /** The route of the k-th attempt is given up: its attempts are used, the pause is too long, or it would
  take the time one attempt of the next route needs. */
  predicate GivesUp(c: Settings, routes: nat, oracle: Oracle, log: seq<Attempt>, k: nat)
    requires k < |log|
  {
    var wait := Wait(c, oracle, log, k);
    || 1 + Tries(log[..k], log[k].route) >= c.maxAttempts
    || wait > c.maxRetryDelay
    || (log[k].route + 1 < routes && EndOf(oracle, log, k) + wait + c.requestTimeout >= c.totalTimeout)
  }

  /** Where and when the call goes on after the k-th attempt. */
  predicate GoesOn(c: Settings, routes: nat, oracle: Oracle, log: seq<Attempt>, k: nat, route: nat, start: real)
    requires k < |log|
  {
    && TriesAgain(Heard(oracle, log, k))
    && if GivesUp(c, routes, oracle, log, k) then route == log[k].route + 1 && start == EndOf(oracle, log, k)
       else route == log[k].route && start == EndOf(oracle, log, k) + Wait(c, oracle, log, k) < c.totalTimeout
  }

  predicate Linked(c: Settings, routes: nat, oracle: Oracle, log: seq<Attempt>, k: nat)
    requires k + 1 < |log|
  {
    GoesOn(c, routes, oracle, log, k, log[k + 1].route, log[k + 1].start)
  }

  predicate Allowed(c: Settings, a: Attempt) {
    && a.allowance <= c.requestTimeout && a.start + a.allowance <= c.totalTimeout
    && (a.allowance == c.requestTimeout || a.start + a.allowance == c.totalTimeout)
  }

  /** Each attempt has all the time there is up to one request's, and follows from the one before. */
  predicate Chain(c: Settings, routes: nat, oracle: Oracle, log: seq<Attempt>) {
    && (forall a <- log :: a.route < routes && Allowed(c, a))
    && (log != [] ==> log[0].route == 0 && log[0].start == 0.0)
    && forall k | 0 <= k < |log| - 1 :: Linked(c, routes, oracle, log, k)
  }

  /** Why the call ended with this verdict after its last attempt. */
  predicate EndsWith(c: Settings, routes: nat, oracle: Oracle, log: seq<Attempt>, verdict: Verdict) {
    if log == [] then routes == 0 && verdict == Unavailable
    else
      var k := |log| - 1;
      match Heard(oracle, log, k)
      case Some(Completed(within)) => verdict == (if within then Succeeded else OverTokens)
      case Some(NotRetryable) => verdict == Rejected
      case Some(InvalidResponse) => verdict == Invalid
      case Some(CassetteDiffers) => verdict == CassetteMismatch
      case _ =>
        if GivesUp(c, routes, oracle, log, k)
        then verdict == (if log[k].route + 1 == routes then Unavailable else DeadlineExceeded)
             && (verdict == DeadlineExceeded ==> EndOf(oracle, log, k) >= c.totalTimeout)
        else verdict == DeadlineExceeded && EndOf(oracle, log, k) + Wait(c, oracle, log, k) >= c.totalTimeout
  }

  /** The position of the loop is where its attempts lead. */
  predicate Arrived(c: Settings, routes: nat, oracle: Oracle, s: Loop) {
    && Chain(c, routes, oracle, s.log) && s.route <= routes && s.onRoute == Tries(s.log, s.route)
    && (forall a <- s.log :: a.route <= s.route)
    && if s.log == [] then s == START else GoesOn(c, routes, oracle, s.log, |s.log| - 1, s.route, s.now)
  }

  lemma NoTries(log: seq<Attempt>, route: nat)
    requires forall a <- log :: a.route != route
    ensures Tries(log, route) == 0
  {
  }

  lemma TriesAppend(log: seq<Attempt>, a: Attempt, route: nat)
    ensures Tries(log + [a], route) == Tries(log, route) + if a.route == route then 1 else 0
  {
    assert (log + [a])[..|log|] == log;
  }

  lemma {:induction false} SameHistory(c: Settings, routes: nat, oracle: Oracle, log: seq<Attempt>, a: Attempt, k: nat)
    requires k < |log|
    ensures var more := log + [a];
            && Heard(oracle, more, k) == Heard(oracle, log, k) && EndOf(oracle, more, k) == EndOf(oracle, log, k)
            && Wait(c, oracle, more, k) == Wait(c, oracle, log, k)
            && GivesUp(c, routes, oracle, more, k) == GivesUp(c, routes, oracle, log, k)
  {
    assert (log + [a])[..k] == log[..k];
    hide Pause;
  }

  /** The attempt made at the loop's position extends its chain. */
  lemma {:induction false} ChainGrows(c: Settings, routes: nat, oracle: Oracle, s: Loop, a: Attempt)
    requires Arrived(c, routes, oracle, s)
    requires s.route < routes && s.now < c.totalTimeout
    requires a == Attempt(s.route, s.now, Smaller(c.totalTimeout - s.now, c.requestTimeout))
    ensures Chain(c, routes, oracle, s.log + [a])
    ensures Tries((s.log + [a])[..|s.log|], s.route) == s.onRoute
  {
    var log := s.log + [a];
    assert log[..|s.log|] == s.log;
    forall k | 0 <= k < |log| - 1 ensures Linked(c, routes, oracle, log, k) {
      SameHistory(c, routes, oracle, s.log, a, k);
      if k + 1 < |s.log| {
        assert Linked(c, routes, oracle, s.log, k);
      }
      hide Heard, EndOf, Wait, GivesUp, Tries;
    }
    hide GoesOn, Tries;
  }

  /** The loop decides about a failed attempt as its history says. */
  lemma {:induction false} DecidedByHistory(c: Settings, routes: nat, oracle: Oracle, log: seq<Attempt>, k: nat)
    requires k < |log| && log[k].route < routes && Settled(Try(oracle(k), log[k].allowance).1) == None
    ensures TriesAgain(Heard(oracle, log, k))
    ensures var (spent, answer) := Try(oracle(k), log[k].allowance);
            && EndOf(oracle, log, k) == log[k].start + spent
            && match AfterFailure(c, routes, log[k].route, 1 + Tries(log[..k], log[k].route), answer.hint, log[k].start + spent)
               case NextRoute => GivesUp(c, routes, oracle, log, k)
               case RetryAfter(pause) =>
                 && !GivesUp(c, routes, oracle, log, k) && pause == Wait(c, oracle, log, k)
                 && EndOf(oracle, log, k) + pause < c.totalTimeout
               case Stop(v) =>
                 && !GivesUp(c, routes, oracle, log, k) && v == DeadlineExceeded
                 && EndOf(oracle, log, k) + Wait(c, oracle, log, k) >= c.totalTimeout
  {
    hide Pause, Tries;
  }

  /** One failed attempt leads where the loop goes on. */
  lemma {:induction false} FollowingArrives(c: Settings, routes: nat, oracle: Oracle, s: Loop)
    requires ValidSettings(c) && Arrived(c, routes, oracle, s) && Following(c, routes, oracle, s).Some?
    ensures Arrived(c, routes, oracle, Following(c, routes, oracle, s).value)
  {
    hide Chain, Smaller, AfterFailure, Try, Settled, GivesUp, EndOf, Heard, TriesAgain, Wait, Tries;
    var a := Attempt(s.route, s.now, Smaller(c.totalTimeout - s.now, c.requestTimeout));
    var log, next := s.log + [a], Following(c, routes, oracle, s).value;
    ChainGrows(c, routes, oracle, s, a);
    assert log[..|log| - 1] == s.log;
    DecidedByHistory(c, routes, oracle, log, |s.log|);
    TriesAppend(s.log, a, s.route);
    if next.route > s.route {
      NoTries(log, next.route);
    }
  }

  /** The call ends between two attempts: there is no further route, or no time for one. */
  lemma {:induction false} EndsBetween(c: Settings, routes: nat, oracle: Oracle, s: Loop)
    requires ValidSettings(c) && Arrived(c, routes, oracle, s) && (s.route >= routes || s.now >= c.totalTimeout)
    ensures EndsWith(c, routes, oracle, s.log, Call(c, routes, oracle, s).0) && Call(c, routes, oracle, s).1 == s.log
  {
    hide Tries, Wait, AfterFailure, Try, Settled;
    assert s.log != [] ==> s.log[|s.log| - 1] in s.log;
  }

  /** The call ends with an attempt. */
  lemma {:induction false} EndsInAttempt(c: Settings, routes: nat, oracle: Oracle, s: Loop, a: Attempt)
    requires ValidSettings(c) && Arrived(c, routes, oracle, s) && s.route < routes && s.now < c.totalTimeout
    requires a == Attempt(s.route, s.now, Smaller(c.totalTimeout - s.now, c.requestTimeout))
    requires Following(c, routes, oracle, s) == None
    ensures var (verdict, log) := Call(c, routes, oracle, s);
            log == s.log + [a] && Chain(c, routes, oracle, log) && EndsWith(c, routes, oracle, log, verdict)
  {
    ChainGrows(c, routes, oracle, s, a);
    hide Chain, Pause, Smaller, Arrived, Tries;
  }

  lemma {:induction false} CallEnds(c: Settings, routes: nat, oracle: Oracle, s: Loop)
    requires ValidSettings(c) && Arrived(c, routes, oracle, s) && Following(c, routes, oracle, s) == None
    ensures var (verdict, log) := Call(c, routes, oracle, s);
            Chain(c, routes, oracle, log) && EndsWith(c, routes, oracle, log, verdict)
  {
    hide Chain, EndsWith, Following, Call, GoesOn, Tries;
    if s.route < routes && s.now < c.totalTimeout {
      EndsInAttempt(c, routes, oracle, s, Attempt(s.route, s.now, Smaller(c.totalTimeout - s.now, c.requestTimeout)));
    } else {
      EndsBetween(c, routes, oracle, s);
    }
  }

  lemma {:induction false} CallFrom(c: Settings, routes: nat, oracle: Oracle, s: Loop)
    requires ValidSettings(c) && Arrived(c, routes, oracle, s)
    ensures var (verdict, log) := Call(c, routes, oracle, s);
            Chain(c, routes, oracle, log) && EndsWith(c, routes, oracle, log, verdict)
    decreases routes - s.route, c.maxAttempts - s.onRoute
  {
    hide Chain, EndsWith, Call, Following, Arrived;
    var next := Following(c, routes, oracle, s);
    if next.Some? {
      CallUnfolds(c, routes, oracle, s);
      FollowingArrives(c, routes, oracle, s);
      FollowingAdvances(c, routes, oracle, s);
      CallFrom(c, routes, oracle, next.value);
    } else {
      CallEnds(c, routes, oracle, s);
    }
  }

  /** The whole history of a call: which attempts were made on which route, when and for how long, and why
  it ended as it did. */
  lemma {:induction false} CallMeans(c: Settings, routes: nat, oracle: Oracle)
    requires ValidSettings(c)
    ensures var (verdict, log) := Call(c, routes, oracle, START);
            Chain(c, routes, oracle, log) && EndsWith(c, routes, oracle, log, verdict)
  {
    hide Call, Chain, EndsWith;
    StartArrived(c, routes, oracle);
    CallFrom(c, routes, oracle, START);
  }

  lemma {:induction false} StartArrived(c: Settings, routes: nat, oracle: Oracle)
    ensures Arrived(c, routes, oracle, START)
  {
  }
}
