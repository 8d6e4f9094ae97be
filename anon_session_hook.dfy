/**
 * The `useAnonSession` hook's mount effect: check for a stored session, otherwise sign in
 * anonymously with up to three attempts, an exponential backoff with jitter between them,
 * an overall deadline checked before each attempt, and an unmount flag checked after each
 * await.
 *
 * Time, randomness and the auth service are inputs (`Env`): the clock reading before each
 * attempt, the `Math.random()` value drawn for each backoff, the reply to each call, and
 * the await during which the component unmounts (if it does). The state setters of one
 * synchronous stretch of code are one render (React batches them), so a run is described
 * by the views it renders, the external calls it makes in order, and the setter batches it
 * issues after unmount (which React ignores).
 */
module AnonSessionHook {
  import opened Wrappers

  const MaxAttempts: nat := 3
  const BaseDelayMs: nat := 500
  const MaxDelayMs: nat := 2500
  const JitterMs: nat := 250
  const TimeoutMs: int := 8000
  const TimeoutMessage: string := "Session setup timed out. Please try again."
  const FallbackMessage: string := "Unable to start session."

  datatype SessionStatus = Idle | Checking | SigningIn | Retrying | Ready | TimedOutStatus | ErrorStatus

  datatype SessionOrigin = NoOrigin | Existing | New

  /** An auth session, opaque to the hook. */
  type Session = string

  /** The reply of `getSession` or `signInAnonymously`: an error message, and the session. */
  datatype AuthReply = AuthReply(error: Option<string>, session: Option<Session>)

  /** The hook's state: what it returns to the component. */
  datatype View = View(
    session: Option<Session>,
    error: Option<string>,
    loading: bool,
    status: SessionStatus,
    attempts: nat,
    origin: SessionOrigin)

  const InitialView: View := View(None, None, true, Idle, 0, NoOrigin)

  /**
   * Everything outside the hook. Awaits are numbered in program order: 0 is `getSession`,
   * 2a - 1 the sign-in of attempt a, 2a the backoff sleep after attempt a. `unmountAt == Some(k)`
   * means the effect's cleanup runs while await k is pending, so `isMounted` is false from
   * its resumption on.
   */
  datatype Env = Env(
    getSession: AuthReply,
    signIn: nat -> AuthReply,
    clock: nat -> int,
    random: nat -> real,
    unmountAt: Option<nat>)

  /** External effects in the order the hook issues them. */
  datatype Call = GetSessionCall | SignInCall(attempt: nat) | Sleep(ms: int)

  /** A run: the hook's final state, the views rendered, the calls made, the setter batches after unmount. */
  datatype Outcome = Outcome(final: View, views: seq<View>, calls: seq<Call>, late: nat)

  /** Whether `isMounted` still holds when await k resumes. */
  predicate Mounted(env: Env, k: int) {
    env.unmountAt.None? || k < env.unmountAt.value
  }

  /** `Date.now() - startedAt > TIMEOUT_MS` before attempt a (reading 0 is `startedAt`). */
  predicate TimedOut(env: Env, a: nat) {
    env.clock(a) - env.clock(0) > TimeoutMs
  }

  function AttemptStatus(a: nat): SessionStatus {
    if a == 1 then SigningIn else Retrying
  }

  function Pow2(n: nat): (r: nat)
    ensures r >= 1
  {
    if n == 0 then 1 else 2 * Pow2(n - 1)
  }

  /** `Math.min(BASE_DELAY_MS * 2 ** (attempt - 1), MAX_DELAY_MS)`. */
  function BaseDelay(a: nat): (d: nat)
    requires a >= 1
    ensures BaseDelayMs <= d <= MaxDelayMs
  {
    var raw := BaseDelayMs * Pow2(a - 1);
    if raw < MaxDelayMs then raw else MaxDelayMs
  }

  /** The base delay plus `Math.floor(Math.random() * 250)`. */
  function Backoff(a: nat, random: real): (d: int)
    requires a >= 1
    ensures 0.0 <= random < 1.0 ==> BaseDelay(a) <= d <= BaseDelay(a) + JitterMs - 1
  {
    BaseDelay(a) + (random * JitterMs as real).Floor
  }

  /** The backoff after attempt a lies in [base, base + 249]; the bases are 500 ms and 1000 ms. */
  lemma BackoffBounds(a: nat, random: real)
    requires a >= 1 && 0.0 <= random < 1.0
    ensures BaseDelay(a) <= Backoff(a, random) <= BaseDelay(a) + JitterMs - 1
    ensures BaseDelay(1) == 500 && BaseDelay(2) == 1000
  {
    var x := random * JitterMs as real;
    assert 0.0 <= x < JitterMs as real;
    assert x.Floor as real <= x < x.Floor as real + 1.0;
    assert Pow2(1) == 2;
  }

  /** One batch of setters: rendered when mounted, otherwise ignored and counted as late. */
  function Segment(live: bool, v: View, w: View): Outcome {
    if live then Outcome(w, [w], [], 0) else Outcome(v, [], [], 1)
  }

  /** One stretch of the run followed by the next. */
  function Then(x: Outcome, y: Outcome): Outcome {
    Outcome(y.final, x.views + y.views, x.calls + y.calls, x.late + y.late)
  }

  lemma ThenAssoc(x: Outcome, y: Outcome, z: Outcome)
    ensures Then(Then(x, y), z) == Then(x, Then(y, z))
  {
    assert (x.views + y.views) + z.views == x.views + (y.views + z.views);
    assert (x.calls + y.calls) + z.calls == x.calls + (y.calls + z.calls);
  }

  /**
   * One attempt that has not timed out, from its setters to the point where the loop either
   * ends or goes on: `attempts` and the status are set, the sign-in is issued, and then the
   * run stops (unmounted), ends "ready" (no error), or, before the last attempt, sleeps.
   */
  function AttemptHead(env: Env, a: nat, v: View, live: bool): (o: Outcome)
    requires a >= 1
    ensures 1 <= |o.calls| <= 2 && o.calls[0] == SignInCall(a)
    ensures |o.calls| == 2 <==> Mounted(env, 2 * a - 1) && env.signIn(a).error.Some? && a < MaxAttempts
    ensures o.late == if live then 0 else 1
    ensures Mounted(env, 2 * a - 1) && env.signIn(a).error.None? ==>
      && o.final.status == Ready && o.final.origin == New && o.final.session == env.signIn(a).session
      && !o.final.loading && (live ==> o.final.attempts == a)
  {
    var w := if live then v.(attempts := a, status := AttemptStatus(a)) else v;
    var asked := Outcome(w, if live then [w] else [], [SignInCall(a)], if live then 0 else 1);
    var reply := env.signIn(a);
    if !Mounted(env, 2 * a - 1) then asked
    else if reply.error.None? then
      var r := w.(session := reply.session, origin := New, status := Ready, loading := false);
      Outcome(r, asked.views + [r], asked.calls, asked.late)
    else if a < MaxAttempts then
      asked.(calls := [SignInCall(a), Sleep(Backoff(a, env.random(a)))])
    else asked
  }

  /**
   * Whether the loop goes on after attempt a: the sign-in failed while mounted and, before
   * the last attempt, the sleep ended — mounted or not, as written (`recheck` false); only
   * while mounted when `isMounted` is read after the sleep (`recheck` true).
   */
  predicate Continues(env: Env, recheck: bool, a: nat) {
    Mounted(env, 2 * a - 1) && env.signIn(a).error.Some? && (a >= MaxAttempts || !recheck || Mounted(env, 2 * a))
  }

  /** `isMounted` at the start of the iteration after attempt a. */
  predicate NextLive(env: Env, a: nat) {
    a >= MaxAttempts || Mounted(env, 2 * a)
  }

  /**
   * The loop from attempt a on; `v` is the hook's state and `live` the value of `isMounted`
   * when the iteration starts, `lastError` the message of the previous failed attempt.
   */
  function Attempts(env: Env, recheck: bool, a: nat, lastError: Option<string>, v: View, live: bool): (o: Outcome)
    requires a >= 1
    ensures |o.calls| <= if a > MaxAttempts then 0 else 2 * (MaxAttempts - a) + 1
    decreases MaxAttempts + 1 - a
  {
    if a > MaxAttempts then
      Segment(live, v, v.(error := Some(lastError.GetOr(FallbackMessage)), status := ErrorStatus, loading := false))
    else if TimedOut(env, a) then
      Segment(live, v, v.(error := Some(TimeoutMessage), status := TimedOutStatus, loading := false))
    else
      var h := AttemptHead(env, a, v, live);
      if Continues(env, recheck, a) then
        Then(h, Attempts(env, recheck, a + 1, env.signIn(a).error, h.final, NextLive(env, a)))
      else h
  }

  /** An attempt after which the loop goes on is followed by the attempts from the next one. */
  lemma AttemptsStep(env: Env, recheck: bool, a: nat, le: Option<string>, v: View, live: bool)
    requires 1 <= a <= MaxAttempts && !TimedOut(env, a) && Continues(env, recheck, a)
    ensures var h := AttemptHead(env, a, v, live);
      Attempts(env, recheck, a, le, v, live)
        == Then(h, Attempts(env, recheck, a + 1, env.signIn(a).error, h.final, NextLive(env, a)))
  {
  }

  /** The state the effect starts from: loading, no error, checking, no attempts, no origin. */
  function Start(v0: View): View {
    v0.(loading := true, error := None, status := Checking, attempts := 0, origin := NoOrigin)
  }

  /** `getSession` replied with neither an error nor a session, so the hook signs in. */
  predicate NeedsSignIn(env: Env) {
    env.getSession.error.None? && env.getSession.session.None?
  }

  /**
   * `ensureSession` from the hook state `v0`. A `getSession` error ends the run in "error"
   * with its message, a stored session in "ready" with origin "existing"; either way
   * `getSession` is the only call. An unmount during `getSession` ends the run silently.
   */
  function Run(env: Env, recheck: bool, v0: View): (o: Outcome)
    ensures |o.views| >= 1 && o.views[0] == Start(v0) && |o.calls| >= 1 && o.calls[0] == GetSessionCall
    ensures !Mounted(env, 0) ==> o == Outcome(Start(v0), [Start(v0)], [GetSessionCall], 0)
    ensures Mounted(env, 0) && env.getSession.error.Some? ==>
      && o.final.status == ErrorStatus && o.final.error == env.getSession.error && !o.final.loading
      && o.calls == [GetSessionCall] && o.final.attempts == 0
    ensures Mounted(env, 0) && env.getSession.error.None? && env.getSession.session.Some? ==>
      && o.final.status == Ready && o.final.origin == Existing && o.final.session == env.getSession.session
      && !o.final.loading && o.final.error.None? && o.calls == [GetSessionCall] && o.final.attempts == 0
  {
    var start := Start(v0);
    var first := Outcome(start, [start], [GetSessionCall], 0);
    var reply := env.getSession;
    if !Mounted(env, 0) then first
    else if reply.error.Some? then
      Then(first, Segment(true, start, start.(error := reply.error, status := ErrorStatus, loading := false)))
    else if reply.session.Some? then
      Then(first, Segment(true, start, start.(session := reply.session, origin := Existing, status := Ready, loading := false)))
    else
      Then(first, Attempts(env, recheck, 1, None, start, true))
  }

  // ---------------------------------------------------------------------------
  // The call schedule
  // ---------------------------------------------------------------------------

  /** Sign-in a, then (except after the last attempt) its backoff sleep, then the rest. */
  function AttemptSchedule(env: Env, a: nat): seq<Call>
    requires a >= 1
    decreases MaxAttempts + 1 - a
  {
    if a > MaxAttempts then []
    else if a == MaxAttempts then [SignInCall(a)]
    else [SignInCall(a), Sleep(Backoff(a, env.random(a)))] + AttemptSchedule(env, a + 1)
  }

  /** Every call the hook can make, in order. */
  function Schedule(env: Env): seq<Call> {
    [GetSessionCall] + AttemptSchedule(env, 1)
  }

  /** The schedule spelled out: three sign-ins at most, a sleep only between two of them. */
  lemma ScheduleShape(env: Env)
    ensures Schedule(env) == [GetSessionCall, SignInCall(1), Sleep(Backoff(1, env.random(1))),
                              SignInCall(2), Sleep(Backoff(2, env.random(2))), SignInCall(3)]
  {
    assert AttemptSchedule(env, 3) == [SignInCall(3)];
    assert AttemptSchedule(env, 2) == [SignInCall(2), Sleep(Backoff(2, env.random(2))), SignInCall(3)];
  }

  /** The calls of one attempt: its sign-in, then the sleep when it failed while mounted before the last attempt. */
  lemma HeadCalls(env: Env, a: nat, v: View, live: bool)
    requires a >= 1
    ensures AttemptHead(env, a, v, live).calls
      == if Mounted(env, 2 * a - 1) && env.signIn(a).error.Some? && a < MaxAttempts
         then [SignInCall(a), Sleep(Backoff(a, env.random(a)))] else [SignInCall(a)]
  {
  }

  lemma PrefixConcat(x: seq<Call>, y: seq<Call>, z: seq<Call>)
    requires y <= z
    ensures x + y <= x + z
  {
    assert x + z == (x + y) + z[|y|..];
  }

  /** One attempt's calls followed by a prefix of the schedule from the next attempt are a prefix of it. */
  lemma ScheduleStep(env: Env, recheck: bool, a: nat, le: Option<string>, v: View, live: bool)
    requires 1 <= a <= MaxAttempts && !TimedOut(env, a)
    requires var h := AttemptHead(env, a, v, live);
      Continues(env, recheck, a) && a < MaxAttempts ==>
        Attempts(env, recheck, a + 1, env.signIn(a).error, h.final, NextLive(env, a)).calls <= AttemptSchedule(env, a + 1)
    ensures Attempts(env, recheck, a, le, v, live).calls <= AttemptSchedule(env, a)
  {
    var h := AttemptHead(env, a, v, live);
    HeadCalls(env, a, v, live);
    var cs := Attempts(env, recheck, a, le, v, live).calls;
    if !Continues(env, recheck, a) {
      assert cs == h.calls;
    } else {
      var rest := Attempts(env, recheck, a + 1, env.signIn(a).error, h.final, NextLive(env, a));
      AttemptsStep(env, recheck, a, le, v, live);
      assert cs == h.calls + rest.calls;
      if a < MaxAttempts {
        assert AttemptSchedule(env, a) == h.calls + AttemptSchedule(env, a + 1);
        PrefixConcat(h.calls, rest.calls, AttemptSchedule(env, a + 1));
      } else {
        assert rest.calls == [];
      }
    }
  }

  lemma {:induction false} AttemptsFollowSchedule(env: Env, recheck: bool, a: nat, le: Option<string>, v: View, live: bool)
    requires a >= 1
    ensures Attempts(env, recheck, a, le, v, live).calls <= AttemptSchedule(env, a)
    decreases MaxAttempts + 1 - a
  {
    if a <= MaxAttempts && !TimedOut(env, a) {
      if Continues(env, recheck, a) && a < MaxAttempts {
        var h := AttemptHead(env, a, v, live);
        AttemptsFollowSchedule(env, recheck, a + 1, env.signIn(a).error, h.final, NextLive(env, a));
      }
      ScheduleStep(env, recheck, a, le, v, live);
    }
  }

  /**
   * Whatever the replies, the clock and the unmount, the calls made are a prefix of the
   * schedule: `getSession`, then at most three sign-ins in order, a backoff only between two
   * attempts and never after the last, each backoff the one of its attempt.
   */
  lemma CallsFollowSchedule(env: Env, recheck: bool, v0: View)
    ensures Run(env, recheck, v0).calls <= Schedule(env)
  {
    AttemptsFollowSchedule(env, recheck, 1, None, Start(v0), true);
  }

  // ---------------------------------------------------------------------------
  // Outcomes while the component stays mounted
  // ---------------------------------------------------------------------------

  /** Attempt b signs in without having timed out, and gets an error. */
  predicate Fails(env: Env, b: nat) {
    !TimedOut(env, b) && env.signIn(b).error.Some?
  }

  lemma {:induction false} SucceedsFrom(env: Env, recheck: bool, a: nat, s: nat, le: Option<string>, v: View)
    requires 1 <= a <= s <= MaxAttempts && env.unmountAt.None?
    requires forall b :: a <= b < s ==> Fails(env, b)
    requires !TimedOut(env, s) && env.signIn(s).error.None?
    ensures var o := Attempts(env, recheck, a, le, v, true);
      && o.final == v.(attempts := s, session := env.signIn(s).session, origin := New, status := Ready, loading := false)
      && |o.calls| == 2 * (s - a) + 1 && o.late == 0
    decreases s - a
  {
    if a < s {
      assert Fails(env, a);
      SucceedsFrom(env, recheck, a + 1, s, env.signIn(a).error, v.(attempts := a, status := AttemptStatus(a)));
    }
  }

  lemma {:induction false} TimesOutFrom(env: Env, recheck: bool, a: nat, t: nat, le: Option<string>, v: View)
    requires 1 <= a <= t <= MaxAttempts && env.unmountAt.None? && v.attempts == a - 1
    requires forall b :: a <= b < t ==> Fails(env, b)
    requires TimedOut(env, t)
    ensures var o := Attempts(env, recheck, a, le, v, true);
      && o.final == v.(attempts := t - 1, error := Some(TimeoutMessage), status := TimedOutStatus, loading := false)
      && |o.calls| == 2 * (t - a) && o.late == 0
    decreases t - a
  {
    if a < t {
      assert Fails(env, a);
      TimesOutFrom(env, recheck, a + 1, t, env.signIn(a).error, v.(attempts := a, status := AttemptStatus(a)));
    }
  }

  lemma {:induction false} FailsFrom(env: Env, recheck: bool, a: nat, le: Option<string>, v: View)
    requires 1 <= a <= MaxAttempts && env.unmountAt.None?
    requires forall b :: a <= b <= MaxAttempts ==> Fails(env, b)
    ensures var o := Attempts(env, recheck, a, le, v, true);
      && o.final == v.(attempts := MaxAttempts, error := env.signIn(MaxAttempts).error,
                       status := ErrorStatus, loading := false)
      && |o.calls| == 2 * (MaxAttempts - a) + 1 && o.late == 0
    decreases MaxAttempts - a
  {
    assert Fails(env, a);
    if a < MaxAttempts {
      FailsFrom(env, recheck, a + 1, env.signIn(a).error, v.(attempts := a, status := AttemptStatus(a)));
    }
  }

  /**
   * The first sign-in that succeeds, at attempt s before the deadline, ends the run in
   * "ready" with origin "new" and its session, after exactly s sign-ins (and s - 1 sleeps).
   */
  lemma RunSucceeds(env: Env, recheck: bool, v0: View, s: nat)
    requires NeedsSignIn(env) && env.unmountAt.None? && 1 <= s <= MaxAttempts
    requires forall b :: 1 <= b < s ==> Fails(env, b)
    requires !TimedOut(env, s) && env.signIn(s).error.None?
    ensures var o := Run(env, recheck, v0);
      && o.final.status == Ready && o.final.origin == New && o.final.session == env.signIn(s).session
      && !o.final.loading && o.final.error.None? && o.final.attempts == s
      && o.calls == Schedule(env)[..2 * s]
  {
    SucceedsFrom(env, recheck, 1, s, None, Start(v0));
    CallsFollowSchedule(env, recheck, v0);
    ScheduleShape(env);
  }

  /**
   * When the deadline has passed before attempt t (every earlier attempt having failed),
   * the run ends in "timeout" with the fixed message, after t - 1 sign-ins.
   */
  lemma RunTimesOut(env: Env, recheck: bool, v0: View, t: nat)
    requires NeedsSignIn(env) && env.unmountAt.None? && 1 <= t <= MaxAttempts
    requires forall b :: 1 <= b < t ==> Fails(env, b)
    requires TimedOut(env, t)
    ensures var o := Run(env, recheck, v0);
      && o.final.status == TimedOutStatus && o.final.error == Some(TimeoutMessage)
      && !o.final.loading && o.final.attempts == t - 1
      && o.calls == Schedule(env)[..2 * t - 1]
  {
    TimesOutFrom(env, recheck, 1, t, None, Start(v0));
    CallsFollowSchedule(env, recheck, v0);
    ScheduleShape(env);
  }

  /** When all three attempts fail, the run ends in "error" with the last attempt's message. */
  lemma RunFailsAll(env: Env, recheck: bool, v0: View)
    requires NeedsSignIn(env) && env.unmountAt.None?
    requires forall b :: 1 <= b <= MaxAttempts ==> Fails(env, b)
    ensures var o := Run(env, recheck, v0);
      && o.final.status == ErrorStatus && o.final.error == env.signIn(MaxAttempts).error && o.final.error.Some?
      && !o.final.loading && o.final.attempts == MaxAttempts
      && o.calls == Schedule(env)
  {
    assert Fails(env, MaxAttempts);
    FailsFrom(env, recheck, 1, None, Start(v0));
    CallsFollowSchedule(env, recheck, v0);
    ScheduleShape(env);
  }

  // ---------------------------------------------------------------------------
  // The rendered views
  // ---------------------------------------------------------------------------

  /** A view the run ends on. */
  predicate Terminal(w: View) {
    !w.loading && (w.status == Ready || w.status == TimedOutStatus || w.status == ErrorStatus)
  }

  /** The view of attempt a: `attempts` is a, the status "signing-in" on the first, "retrying" after. */
  predicate AttemptView(w: View, a: nat) {
    w.attempts == a && w.status == AttemptStatus(a)
  }

  /** The views of one attempt: its own view (when mounted), then possibly the terminal "ready" view. */
  lemma HeadViews(env: Env, a: nat, v: View, live: bool)
    requires a >= 1 && (live || !Mounted(env, 2 * a - 2))
    ensures var h := AttemptHead(env, a, v, live);
      && (!live ==> h.views == [])
      && (live ==> |h.views| >= 1 && AttemptView(h.views[0], a) && h.final == h.views[|h.views| - 1])
      && (live && |h.views| > 1 ==> |h.views| == 2 && Terminal(h.views[1]))
      && (live && Mounted(env, 2 * a - 1) && env.signIn(a).error.Some? ==> h.views == [h.final])
  {
  }

  /** From position 0 on, `vs` holds the views of attempts a, a + 1, ..., possibly ending on a terminal view. */
  predicate ShapedFrom(vs: seq<View>, a: nat) {
    forall j :: 0 <= j < |vs| ==> AttemptView(vs[j], a + j) || (j == |vs| - 1 && Terminal(vs[j]))
  }

  lemma ShapedCons(w: View, rest: seq<View>, a: nat)
    requires AttemptView(w, a) && ShapedFrom(rest, a + 1)
    ensures ShapedFrom([w] + rest, a)
  {
    var vs := [w] + rest;
    forall j | 0 <= j < |vs| ensures AttemptView(vs[j], a + j) || (j == |vs| - 1 && Terminal(vs[j])) {
      if j > 0 { assert vs[j] == rest[j - 1]; }
    }
  }

  /** One attempt's views followed by well-shaped views from the next attempt are well shaped. */
  lemma ViewsStep(env: Env, recheck: bool, a: nat, le: Option<string>, v: View, live: bool)
    requires 1 <= a <= MaxAttempts && !TimedOut(env, a) && (live || !Mounted(env, 2 * a - 2))
    requires var h := AttemptHead(env, a, v, live);
      Continues(env, recheck, a) ==>
        ShapedFrom(Attempts(env, recheck, a + 1, env.signIn(a).error, h.final, NextLive(env, a)).views, a + 1)
    ensures ShapedFrom(Attempts(env, recheck, a, le, v, live).views, a)
  {
    var h := AttemptHead(env, a, v, live);
    HeadViews(env, a, v, live);
    if Continues(env, recheck, a) {
      var rest := Attempts(env, recheck, a + 1, env.signIn(a).error, h.final, NextLive(env, a));
      AttemptsStep(env, recheck, a, le, v, live);
      assert Attempts(env, recheck, a, le, v, live).views == [h.final] + rest.views;
      ShapedCons(h.final, rest.views, a);
    } else {
      assert Attempts(env, recheck, a, le, v, live) == h;
    }
  }

  lemma {:induction false} AttemptsViews(env: Env, recheck: bool, a: nat, le: Option<string>, v: View, live: bool)
    requires a >= 1 && (live || !Mounted(env, 2 * a - 2))
    ensures ShapedFrom(Attempts(env, recheck, a, le, v, live).views, a)
    decreases MaxAttempts + 1 - a
  {
    if a <= MaxAttempts && !TimedOut(env, a) {
      if Continues(env, recheck, a) {
        var h := AttemptHead(env, a, v, live);
        AttemptsViews(env, recheck, a + 1, env.signIn(a).error, h.final, NextLive(env, a));
      }
      ViewsStep(env, recheck, a, le, v, live);
    }
  }

  /**
   * The views a run renders: "checking" first, then one view per attempt in order with
   * `attempts` equal to the attempt number, and, unless the run ended by unmount, a last
   * view that is not loading and is "ready", "timeout" or "error".
   */
  lemma RunViews(env: Env, recheck: bool, v0: View)
    ensures var vs := Run(env, recheck, v0).views;
      && vs[0] == Start(v0) && vs[0].status == Checking && vs[0].attempts == 0 && vs[0].loading
      && forall j :: 1 <= j < |vs| ==> AttemptView(vs[j], j) || (j == |vs| - 1 && Terminal(vs[j]))
  {
    var start := Start(v0);
    var vs := Run(env, recheck, v0).views;
    if Mounted(env, 0) && NeedsSignIn(env) {
      var rest := Attempts(env, recheck, 1, None, start, true);
      AttemptsViews(env, recheck, 1, None, start, true);
      assert vs == [start] + rest.views;
      forall j | 1 <= j < |vs| ensures AttemptView(vs[j], j) || (j == |vs| - 1 && Terminal(vs[j])) {
        assert vs[j] == rest.views[j - 1];
      }
    }
  }

  // ---------------------------------------------------------------------------
  // Unmount
  // ---------------------------------------------------------------------------

  /** The await that precedes the sign-in of attempt a: `getSession`, or the previous sleep. */
  function AwaitBefore(a: nat): int {
    2 * a - 2
  }

  /** Every sign-in among `cs` is issued while the component is mounted. */
  predicate SignInsMounted(env: Env, cs: seq<Call>) {
    forall i :: 0 <= i < |cs| && cs[i].SignInCall? ==> Mounted(env, AwaitBefore(cs[i].attempt))
  }

  lemma {:induction false} GuardedAttempts(env: Env, a: nat, le: Option<string>, v: View)
    requires a >= 1 && (a > MaxAttempts || Mounted(env, AwaitBefore(a)))
    ensures var o := Attempts(env, true, a, le, v, true);
      o.late == 0 && SignInsMounted(env, o.calls)
    decreases MaxAttempts + 1 - a
  {
    if a <= MaxAttempts && !TimedOut(env, a) {
      var h := AttemptHead(env, a, v, true);
      assert h.late == 0 && h.calls[0] == SignInCall(a) && forall i :: 1 <= i < |h.calls| ==> h.calls[i].Sleep?;
      if Continues(env, true, a) {
        var rest := Attempts(env, true, a + 1, env.signIn(a).error, h.final, true);
        GuardedAttempts(env, a + 1, env.signIn(a).error, h.final);
        AttemptsStep(env, true, a, le, v, true);
        var cs := Attempts(env, true, a, le, v, true).calls;
        assert cs == h.calls + rest.calls;
        forall i | 0 <= i < |cs| && cs[i].SignInCall? ensures Mounted(env, AwaitBefore(cs[i].attempt)) {
          if i >= |h.calls| { assert cs[i] == rest.calls[i - |h.calls|]; }
        }
      }
    }
  }

  /**
   * With `isMounted` also read after the backoff sleep, nothing happens after unmount: no
   * setter runs once the component is gone, and every sign-in is issued while it is mounted.
   */
  lemma GuardedNoEffectsAfterUnmount(env: Env, v0: View)
    ensures var o := Run(env, true, v0);
      o.late == 0 && SignInsMounted(env, o.calls)
  {
    var o := Run(env, true, v0);
    if Mounted(env, 0) && NeedsSignIn(env) {
      var rest := Attempts(env, true, 1, None, Start(v0), true);
      GuardedAttempts(env, 1, None, Start(v0));
      assert o.calls == [GetSessionCall] + rest.calls;
      forall i | 0 <= i < |o.calls| && o.calls[i].SignInCall? ensures Mounted(env, AwaitBefore(o.calls[i].attempt)) {
        assert o.calls[i] == rest.calls[i - 1];
      }
    }
  }

  /** Failing sign-ins, a clock that never advances, zero jitter, and an unmount during the first sleep. */
  function UnmountDuringSleep(): Env {
    Env(AuthReply(None, None), (a: nat) => AuthReply(Some("rate limited"), None), (k: nat) => 0, (a: nat) => 0.0, Some(2))
  }

  /**
   * As written, an unmount during the backoff sleep does not stop the loop: the next
   * iteration still issues its setters (one ignored batch) and a second anonymous sign-in,
   * which the guarded loop does not make.
   */
  lemma AsWrittenSignsInAfterUnmount()
    ensures var env := UnmountDuringSleep();
      && !Mounted(env, AwaitBefore(2))
      && Run(env, false, InitialView).calls == [GetSessionCall, SignInCall(1), Sleep(500), SignInCall(2)]
      && Run(env, false, InitialView).late == 1
      && !SignInsMounted(env, Run(env, false, InitialView).calls)
      && Run(env, true, InitialView).calls == [GetSessionCall, SignInCall(1), Sleep(500)]
  {
    var env := UnmountDuringSleep();
    FirstAttemptUnmounted();
    GuardedStopsAfterSleep();
    var start := Start(InitialView);
    var h1 := AttemptHead(env, 1, start, true);
    var h2 := AttemptHead(env, 2, h1.final, false);
    assert Attempts(env, false, 2, Some("rate limited"), h1.final, false) == h2;
    assert Attempts(env, false, 1, None, start, true) == Then(h1, h2);
    var cs := Run(env, false, InitialView).calls;
    assert cs[3] == SignInCall(2);
  }

  /** With the guard after the sleep, `UnmountDuringSleep` ends the run after the first sleep. */
  lemma GuardedStopsAfterSleep()
    ensures Run(UnmountDuringSleep(), true, InitialView).calls == [GetSessionCall, SignInCall(1), Sleep(500)]
  {
    var env := UnmountDuringSleep();
    FirstAttemptUnmounted();
    var start := Start(InitialView);
    assert Attempts(env, true, 1, None, start, true) == AttemptHead(env, 1, start, true);
  }

  /** The first two attempts of `UnmountDuringSleep`: a failed sign-in, a 500 ms sleep, then the ignored second attempt. */
  lemma FirstAttemptUnmounted()
    ensures var env := UnmountDuringSleep();
      var h1 := AttemptHead(env, 1, Start(InitialView), true);
      var h2 := AttemptHead(env, 2, h1.final, false);
      && !TimedOut(env, 1) && !TimedOut(env, 2)
      && h1.calls == [SignInCall(1), Sleep(500)]
      && h2.calls == [SignInCall(2)] && h2.late == 1
      && Continues(env, false, 1) && !Continues(env, false, 2) && !Continues(env, true, 1)
  {
    assert Backoff(1, 0.0) == 500 by { assert Pow2(0) == 1; }
  }

  // ---------------------------------------------------------------------------
  // The hook
  // ---------------------------------------------------------------------------

  /** The hook's state with the log of its renders and calls. */
  class Hook {
    var state: View
    var views: seq<View>
    var calls: seq<Call>

    constructor()
      ensures state == InitialView && views == [] && calls == []
    {
      state := InitialView;
      views := [];
      calls := [];
    }

    /**
     * The hook has gone from views `views0` and calls `calls0` to where outcome `o` ends:
     * its state is `o.final`, it rendered `o.views` and made `o.calls`, with no late setter.
     */
    predicate Reached(o: Outcome, views0: seq<View>, calls0: seq<Call>)
      reads this
    {
      state == o.final && views == views0 + o.views && calls == calls0 + o.calls && o.late == 0
    }

    /** One batch of setters, rendered as one view. */
    method Render(w: View)
      modifies this
      ensures state == w && views == old(views) + [w] && calls == old(calls)
    {
      state := w;
      views := views + [w];
    }

    /**
     * `ensureSession` with `isMounted` read after every await, the backoff sleep included:
     * the hook ends in the state `Run` describes, having rendered its views and made its
     * calls, and it never sets state after unmount.
     */
    method EnsureSession(env: Env)
      modifies this
      ensures Reached(Run(env, true, old(state)), old(views), old(calls))
    {
      var start := Start(state);
      Render(start);
      calls := calls + [GetSessionCall];
      var reply := env.getSession;
      if !Mounted(env, 0) {
      } else if reply.error.Some? {
        Render(state.(error := reply.error, status := ErrorStatus, loading := false));
      } else if reply.session.Some? {
        Render(state.(session := reply.session, origin := Existing, status := Ready, loading := false));
      } else {
        ghost var signIns := Attempts(env, true, 1, None, start, true);
        SignInAttempts(env);
        assert views == old(views) + ([start] + signIns.views);
        assert calls == old(calls) + ([GetSessionCall] + signIns.calls);
      }
    }

    /**
     * The sign-in loop of `ensureSession`, guarded after every await: it ends in the state
     * `Attempts` describes from attempt 1, having rendered its views and made its calls.
     */
    method SignInAttempts(env: Env)
      modifies this
      ensures Reached(Attempts(env, true, 1, None, old(state), true), old(views), old(calls))
    {
      ghost var o := Attempts(env, true, 1, None, state, true);
      ghost var before := Outcome(state, views, calls, 0);
      var lastError: Option<string> := None;
      var attempt: nat := 1;
      while attempt <= MaxAttempts
        invariant 1 <= attempt <= MaxAttempts + 1
        invariant Then(before, o) == Then(Outcome(state, views, calls, 0), Attempts(env, true, attempt, lastError, state, true))
        decreases MaxAttempts + 1 - attempt
      {
        ghost var cur := Outcome(state, views, calls, 0);
        if TimedOut(env, attempt) {
          Render(state.(error := Some(TimeoutMessage), status := TimedOutStatus, loading := false));
          return;
        }
        ghost var h := AttemptHead(env, attempt, state, true);
        ghost var prevError := lastError;
        var stop;
        stop, lastError := Attempt(env, attempt);
        if stop {
          return;
        }
        AttemptsStep(env, true, attempt, prevError, cur.final, true);
        assert Outcome(state, views, calls, 0) == Then(cur, h);
        ThenAssoc(cur, h, Attempts(env, true, attempt + 1, lastError, state, true));
        attempt := attempt + 1;
      }
      Render(state.(error := Some(lastError.GetOr(FallbackMessage)), status := ErrorStatus, loading := false));
    }

    /**
     * One iteration of the sign-in loop that has not timed out: the setters, the sign-in and,
     * before the last attempt, the sleep. `stop` says the loop ends here (unmounted, or
     * signed in); `error` is the sign-in's error.
     */
    method Attempt(env: Env, a: nat) returns (stop: bool, error: Option<string>)
      requires 1 <= a <= MaxAttempts
      modifies this
      ensures Reached(AttemptHead(env, a, old(state), true), old(views), old(calls))
      ensures stop <==> !Continues(env, true, a)
      ensures error == env.signIn(a).error
    {
      Render(state.(attempts := a, status := AttemptStatus(a)));
      calls := calls + [SignInCall(a)];
      var signIn := env.signIn(a);
      error := signIn.error;
      if !Mounted(env, 2 * a - 1) {
        return true, error;
      }
      if signIn.error.None? {
        Render(state.(session := signIn.session, origin := New, status := Ready, loading := false));
        return true, error;
      }
      stop := false;
      if a < MaxAttempts {
        var backoff := Backoff(a, env.random(a));
        calls := calls + [Sleep(backoff)];
        if !Mounted(env, 2 * a) {
          stop := true;
        }
      }
    }
  }
}
