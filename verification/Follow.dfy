/** The follow loop beside the waker: a timer, a channel that holds one token, sends that are
    dropped when it is full, and a drain that throws tokens away. No posted event is lost. */
module Follow {
  import opened Prelude

  // ---------- the machine ----------

  datatype Phase = Waiting | Draining | Starting | Running | Stopped

  /** `token` is the channel; `armed` says the timer may fire. The rest is history: whether an
      event was posted since the last pass began, how many were posted, and how many passes
      a token has caused. */
  datatype State = State(token: bool, armed: bool, phase: Phase, unseen: bool, posted: nat, woken: nat)

  /** Post is the waker's; the others are the loop's. */
  datatype Event = Post | Fire | Take | Discard | Drained | Start | Rearm | Stop

  const INITIAL := State(false, true, Waiting, false, 0, 0)

  predicate Legal(s: State, e: Event) {
    match e
    case Post => true
    case Fire => s.phase.Waiting? && s.armed
    case Take => s.phase.Waiting? && s.token
    case Discard => s.phase.Draining? && s.token
    case Drained => s.phase.Draining? && !s.token
    case Start => s.phase.Starting?
    case Rearm => s.phase.Running?
    case Stop => s.phase.Waiting? || s.phase.Running?
  }

  function Step(s: State, e: Event): State
    requires Legal(s, e)
  {
    match e
    case Post => s.(token := true, unseen := true, posted := s.posted + 1)
    case Fire => s.(armed := false, phase := Starting)
    case Take => s.(token := false, phase := Draining, woken := s.woken + 1)
    case Discard => s.(token := false)
    case Drained => s.(phase := Starting)
    case Start => s.(phase := Running, unseen := false)
    case Rearm => s.(phase := Waiting, armed := true)
    case Stop => s.(phase := Stopped)
  }

  predicate LegalRun(s: State, es: seq<Event>)
    decreases |es|
  {
    es == [] || (Legal(s, es[0]) && LegalRun(Step(s, es[0]), es[1..]))
  }

  function Run(s: State, es: seq<Event>): State
    requires LegalRun(s, es)
    decreases |es|
  {
    if es == [] then s else Run(Step(s, es[0]), es[1..])
  }

  lemma {:induction false} RunSnoc(s: State, es: seq<Event>, e: Event)
    requires LegalRun(s, es) && Legal(Run(s, es), e)
    ensures LegalRun(s, es + [e]) && Run(s, es + [e]) == Step(Run(s, es), e)
    decreases |es|
  {
    if es == [] {
      assert [e][1..] == [];
    } else {
      assert (es + [e])[0] == es[0] && (es + [e])[1..] == es[1..] + [e];
      RunSnoc(Step(s, es[0]), es[1..], e);
    }
  }

  /** An unseen event has a token pending or a pass about to start; a waiting loop can always
      go on; and no pass is woken without an event. */
  predicate Inv(s: State) {
    && (s.unseen ==> s.token || s.phase.Draining? || s.phase.Starting?)
    && (s.phase.Waiting? ==> s.armed)
    && s.woken + (if s.token then 1 else 0) <= s.posted
  }

  /** No wakeup is lost, in any reachable state. */
  lemma {:induction false} NoLostWakeup(s: State, es: seq<Event>)
    requires Inv(s) && LegalRun(s, es)
    ensures Inv(Run(s, es))
    ensures var s' := Run(s, es); s'.unseen && s'.phase.Waiting? ==> Legal(s', Take)
    decreases |es|
  {
    if es != [] {
      NoLostWakeup(Step(s, es[0]), es[1..]);
    }
  }

  function Count(es: seq<Event>, e: Event): nat {
    if es == [] then 0 else (if es[0] == e then 1 else 0) + Count(es[1..], e)
  }

  /** However many events were posted before, with no further one at most one more pass is
      woken. */
  lemma {:induction false} BurstWakesOnce(s: State, es: seq<Event>)
    requires LegalRun(s, es) && Count(es, Post) == 0
    ensures Count(es, Take) <= if s.token then 1 else 0
    decreases |es|
  {
    if es != [] {
      BurstWakesOnce(Step(s, es[0]), es[1..]);
    }
  }

  /** Once an event is posted, the loop finishes at most the pass it is in without a pass
      having begun after the event. */
  lemma {:induction false} SeenBeforeSecondRearm(s: State, es: seq<Event>)
    requires Inv(s) && s.unseen && LegalRun(s, es) && Count(es, Start) == 0
    ensures Count(es, Rearm) <= if s.phase.Running? then 1 else 0
    ensures Run(s, es).unseen
    decreases |es|
  {
    if es != [] {
      SeenBeforeSecondRearm(Step(s, es[0]), es[1..]);
    }
  }

  // ---------- backoff ----------

  const SECOND := 1_000_000_000

  /** Durations in nanoseconds. */
  datatype Options = Options(interval: int, once: bool, minBackoff: int, maxBackoff: int)

  function Least(o: Options): int {
    if o.minBackoff <= 0 then SECOND else o.minBackoff
  }

  function Most(o: Options): int {
    if o.maxBackoff <= 0 then 120 * SECOND else o.maxBackoff
  }

  /** Doubling stays within a 64-bit duration. */
  predicate NoOverflow(o: Options) {
    2 * Least(o) <= MAX_DURATION && 2 * Most(o) <= MAX_DURATION
  }

  function Wrap(n: int): int {
    (n + 0x8000_0000_0000_0000) % 0x1_0000_0000_0000_0000 - 0x8000_0000_0000_0000
  }

  function Doubled(o: Options, backoff: int): int {
    var d := Wrap(backoff * 2);
    if d > Most(o) then Most(o) else d
  }

  function Pow2(k: nat): int {
    if k == 0 then 1 else 2 * Pow2(k - 1)
  }

  function Min(a: int, b: int): int {
    if a <= b then a else b
  }

  /** What the k-th consecutive failure reports: the first the least delay, the k-th the
      least delay doubled k - 1 times and capped. */
  function Delay(o: Options, k: nat): int
    requires k > 0
  {
    if k == 1 then Least(o) else Min(Least(o) * Pow2(k - 1), Most(o))
  }

  lemma PowGrows(k: nat)
    ensures Pow2(k) >= 1
  {
    if k > 0 { PowGrows(k - 1); }
  }

  /** Doubling a delay and capping it gives the next one. */
  lemma NextDelay(o: Options, k: nat)
    requires NoOverflow(o) && k > 0
    ensures 0 < Delay(o, k) && 2 * Delay(o, k) <= MAX_DURATION
    ensures Doubled(o, Delay(o, k)) == Delay(o, k + 1)
  {
    PowGrows(k - 1);
    var a, p := Least(o), Pow2(k - 1);
    assert Pow2(k) == 2 * p;
    assert a * (2 * p) == 2 * (a * p);
    assert a * p >= a by { Product(a, p); }
    assert k == 1 ==> a * p == a;
  }

  lemma Product(a: int, p: int)
    requires a > 0 && p >= 1
    ensures a * p >= a
  {
    assert a * p == a + a * (p - 1);
    assert a * (p - 1) >= 0;
  }

  /** Capped exponentials never fall, and stay at the cap once they reach it. */
  lemma DelaysGrow(o: Options, k: nat)
    requires NoOverflow(o) && k > 0 && Least(o) <= Most(o)
    ensures Delay(o, k) <= Delay(o, k + 1) <= Most(o)
    ensures Delay(o, k) == Min(Least(o) * Pow2(k - 1), Most(o))
  {
    NextDelay(o, k);
    PowGrows(k - 1);
    assert k == 1 ==> Pow2(k - 1) == 1;
  }

  /** With no backoff configured the delays are 1, 2, 4, 8, 16, 32 and 64 seconds, and then 2
      minutes. */
  lemma DefaultDelays(o: Options, k: nat)
    requires o.minBackoff <= 0 && o.maxBackoff <= 0 && k > 0
    ensures Delay(o, 1) == 1_000_000_000 && Delay(o, 2) == 2_000_000_000 && Delay(o, 3) == 4_000_000_000
    ensures Delay(o, 4) == 8_000_000_000 && Delay(o, 5) == 16_000_000_000 && Delay(o, 6) == 32_000_000_000
    ensures Delay(o, 7) == 64_000_000_000 && (k >= 8 ==> Delay(o, k) == 120_000_000_000)
  {
    assert Pow2(1) == 2 && Pow2(2) == 4 && Pow2(3) == 8;
    assert Pow2(4) == 16 && Pow2(5) == 32 && Pow2(6) == 64 && Pow2(7) == 128;
    if k >= 8 { PowFrom7(k - 1); }
  }

  lemma {:induction false} PowFrom7(k: nat)
    requires k >= 7
    ensures Pow2(k) >= 128
  {
    if k == 7 {
      assert Pow2(3) == 8 && Pow2(5) == 32 && Pow2(7) == 128;
    } else {
      PowFrom7(k - 1);
    }
  }

  // ---------- the loop ----------

  /** How a wait ends: the context is done, the timer fires, or the channel is ready. */
  datatype Wait = Done | Timer | Wake

  /** How a pass ends; `goOn` is what the error handler answers (true without a handler). */
  datatype Outcome = Succeeded | Interrupted | Failed(goOn: bool)

  datatype Turn = Turn(wait: Wait, outcome: Outcome)

  /** What was reported of a pass, and what the timer was then set to. */
  datatype Report = Report(outcome: Outcome, delay: int, sleep: int)

  /** Every wait ends with a pass, which succeeds or fails with the handler's consent. */
  predicate NeverStops(turns: seq<Turn>) {
    forall i | 0 <= i < |turns| ::
      !turns[i].wait.Done? && (turns[i].outcome.Succeeded? || turns[i].outcome == Failed(true))
  }

  /** Consecutive failures up to and including pass i. */
  function Streak(reports: seq<Report>, i: nat): nat
    requires i < |reports|
  {
    if !reports[i].outcome.Failed? then 0
    else if i == 0 then 1
    else 1 + Streak(reports, i - 1)
  }

  lemma {:induction false} StreakPrefix(a: seq<Report>, r: Report, i: nat)
    requires i < |a|
    ensures Streak(a + [r], i) == Streak(a, i)
  {
    if i > 0 { StreakPrefix(a, r, i - 1); }
  }

  function Failures(reports: seq<Report>): nat {
    if reports == [] then 0 else Streak(reports, |reports| - 1)
  }

  /** The backoff held after k consecutive failures. */
  function Held(o: Options, k: nat): int {
    Delay(o, k + 1)
  }

  /** Each report is what the outcome calls for. */
  predicate Reported(o: Options, reports: seq<Report>, i: nat)
    requires i < |reports|
  {
    && (reports[i].outcome.Failed? && NoOverflow(o) ==>
         reports[i].delay == Delay(o, Streak(reports, i))
         && (reports[i].outcome.goOn ==> reports[i].sleep == reports[i].delay))
    && (reports[i].outcome.Succeeded? && !o.once ==> reports[i].sleep == o.interval)
  }

  predicate AllReported(o: Options, reports: seq<Report>) {
    forall i :: 0 <= i < |reports| ==> Reported(o, reports, i)
  }

  lemma OneMoreReport(o: Options, reports: seq<Report>, r: Report)
    requires AllReported(o, reports) && Reported(o, reports + [r], |reports|)
    ensures AllReported(o, reports + [r])
  {
    forall i | 0 <= i < |reports| ensures Reported(o, reports + [r], i) {
      StreakPrefix(reports, r, i);
      assert Reported(o, reports, i);
    }
  }

  class Follower {
    const o: Options
    var token: bool

    /** How many events the waker posts before each step of the loop. */
    var posts: seq<nat>

    ghost var state: State
    ghost var log: seq<Event>

    ghost predicate Valid()
      reads this
    {
      LegalRun(INITIAL, log) && Run(INITIAL, log) == state && state.token == token
    }

    constructor (o: Options, posts: seq<nat>)
      ensures Valid() && this.o == o && this.posts == posts && state.phase.Waiting? && log == []
    {
      this.o, this.posts, token, state, log := o, posts, false, INITIAL, [];
    }

    ghost method Record(e: Event)
      requires LegalRun(INITIAL, log) && Run(INITIAL, log) == state && Legal(state, e)
      modifies `state, `log
      ensures LegalRun(INITIAL, log) && Run(INITIAL, log) == state && state == Step(old(state), e)
    {
      RunSnoc(INITIAL, log, e);
      log := log + [e];
      state := Step(state, e);
    }

    /** The waker's sends: each leaves a token unless one is there already. */
    method Send(n: nat)
      requires Valid()
      modifies `token, `state, `log
      ensures Valid() && state.phase == old(state.phase) && state.armed == old(state.armed)
      ensures token == (old(token) || n > 0) && state.unseen == (old(state.unseen) || n > 0)
      ensures state.posted == old(state.posted) + n && state.woken == old(state.woken)
    {
      for i := 0 to n
        invariant Valid() && state.phase == old(state.phase) && state.armed == old(state.armed)
        invariant token == (old(token) || i > 0) && state.unseen == (old(state.unseen) || i > 0)
        invariant state.posted == old(state.posted) + i && state.woken == old(state.woken)
      {
        if !token {
          token := true;
        }
        Record(Post);
      }
    }

    method Meanwhile()
      requires Valid()
      modifies `token, `posts, `state, `log
      ensures Valid() && state.phase == old(state.phase) && state.armed == old(state.armed)
      ensures if old(posts) == [] then posts == [] && token == old(token) else |posts| < |old(posts)|
    {
      if posts != [] {
        var n := posts[0];
        posts := posts[1..];
        Send(n);
      }
    }

    /** Empties the channel; more may arrive while it does. */
    method Drain()
      requires Valid() && state.phase.Draining?
      modifies `token, `posts, `state, `log
      ensures Valid() && state.phase.Starting? && !token
    {
      Meanwhile();
      while token
        invariant Valid() && state.phase.Draining?
        decreases |posts|, token
      {
        token := false;
        Record(Discard);
        Meanwhile();
      }
      Record(Drained);
    }

    /** The select: any ready case may be taken, and the timer is always one. */
    method Select(w: Wait) returns (go: bool)
      requires Valid() && state.phase.Waiting?
      modifies `token, `posts, `state, `log
      ensures Valid() && go == !w.Done?
      ensures w.Wake? ==> !token
      ensures state.phase == if go then Starting else Stopped
    {
      NoLostWakeup(INITIAL, log);
      Meanwhile();
      NoLostWakeup(INITIAL, log);
      go := !w.Done?;
      if !go {
        Record(Stop);
      } else if w.Wake? && token {
        token := false;
        Record(Take);
        Drain();
      } else {
        Record(Fire);
      }
    }

    method Pass()
      requires Valid() && state.phase.Starting?
      modifies `token, `posts, `state, `log
      ensures Valid() && state.phase.Running?
    {
      Meanwhile();
      Record(Start);
      Meanwhile();
    }

    /** After a pass: back to waiting, or out. */
    method Settle(go: bool)
      requires Valid() && state.phase.Running?
      modifies `state, `log
      ensures Valid() && state.phase == if go then Waiting else Stopped
    {
      if go { Record(Rearm); } else { Record(Stop); }
    }

    /** Follows the source until the context is done. Every pass is reported as its outcome
        calls for, the k-th consecutive failure with its capped delay. The loop goes on after a
        success, unless `once` is set, and after a failure the handler accepts; it stops at the
        first wait that ends with the context done, and after the first pass that is
        interrupted, fails with the handler declining, or succeeds with `once`. */
    method Loop(turns: seq<Turn>) returns (err: bool, reports: seq<Report>)
      requires Valid() && state.phase.Waiting?
      modifies `token, `posts, `state, `log
      ensures Valid() && state.phase.Stopped? && (state.unseen ==> token)
      ensures |reports| <= |turns| && AllReported(o, reports)
      ensures forall i :: 0 <= i < |reports| ==> !turns[i].wait.Done? && reports[i].outcome == turns[i].outcome
      ensures forall i | 0 <= i < |reports| - 1 ::
                (turns[i].outcome.Succeeded? && !o.once) || turns[i].outcome == Failed(true)
      ensures |reports| < |turns| ==>
                || turns[|reports|].wait.Done?
                || (reports != [] && var last := turns[|reports| - 1].outcome;
                      last.Interrupted? || last == Failed(false) || (last.Succeeded? && o.once))
      ensures err <==> reports != [] && reports[|reports| - 1].outcome == Failed(false)
      ensures !o.once && NeverStops(turns) ==> |reports| == |turns| && !err
    {
      hide LegalRun, Run, Inv;
      err, reports := false, [];
      var backoff := Least(o);
      for i := 0 to |turns|
        invariant Valid() && state.phase.Waiting? && |reports| == i && AllReported(o, reports)
        invariant forall j :: 0 <= j < i ==> !turns[j].wait.Done? && reports[j].outcome == turns[j].outcome
        invariant forall j | 0 <= j < i ::
                    (turns[j].outcome.Succeeded? && !o.once) || turns[j].outcome == Failed(true)
        invariant NoOverflow(o) ==> backoff == Held(o, Failures(reports))
      {
        var go := Select(turns[i].wait);
        if !go { UnseenHasToken(log); return; }
        Pass();
        var r;
        r, backoff := After(turns[i].outcome, backoff, reports);
        reports := reports + [r];
        match turns[i].outcome {
          case Succeeded => go := !o.once;
          case Interrupted => go := false;
          case Failed(goOn) => go := goOn;
        }
        Settle(go);
        if !go {
          UnseenHasToken(log);
          return r.outcome == Failed(false), reports;
        }
      }
      NoLostWakeup(INITIAL, log);
      Record(Stop);
      UnseenHasToken(log);
    }

    /** What a pass is reported as, and the backoff to hold from then on. */
    method After(outcome: Outcome, backoff: int, ghost reports: seq<Report>) returns (r: Report, held: int)
      requires AllReported(o, reports) && (NoOverflow(o) ==> backoff == Held(o, Failures(reports)))
      ensures r.outcome == outcome && AllReported(o, reports + [r])
      ensures NoOverflow(o) && !outcome.Interrupted? ==> held == Held(o, Failures(reports + [r]))
    {
      held := backoff;
      match outcome {
        case Succeeded =>
          held := Least(o);
          r := Report(outcome, 0, o.interval);
        case Interrupted =>
          r := Report(outcome, 0, 0);
        case Failed(_) =>
          r := Report(outcome, backoff, backoff);
          held := Doubled(o, backoff);
          if NoOverflow(o) { NextDelay(o, Failures(reports) + 1); }
      }
      if reports != [] { StreakPrefix(reports, r, |reports| - 1); }
      OneMoreReport(o, reports, r);
    }
  }

  lemma UnseenHasToken(es: seq<Event>)
    requires LegalRun(INITIAL, es) && Run(INITIAL, es).phase.Stopped?
    ensures Run(INITIAL, es).unseen ==> Run(INITIAL, es).token
  {
    NoLostWakeup(INITIAL, es);
  }
}
