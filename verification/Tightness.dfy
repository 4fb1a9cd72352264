/** Two limits are exact. The bound on Jane's lag is reached, whatever the number of worker slots,
    by a run in which all slots but one deliver to a conversation that stays escalated; and a
    retention of no days can strand an escalation. */
module Tightness {
  import opened Options
  import opened Phone
  import opened Counting
  import opened Records
  import opened Processes
  import opened Sequential
  import opened Service
  import opened Progress
  import opened Solo
  import opened Quiet
  import opened Ledger
  import opened Retention
  import opened Volleys

  const BRAND: Option<string> := Some("uri")
  const CUSTOMER: string := "2348031234567"
  const LINE: string := "100200300"
  const QUESTION: string := "Do you also repair bicycles?"

  /** Message ids told apart by their length. */
  function Id(n: nat): string {
    seq(n + 1, (i: nat) => 'm')
  }

  function Msg(n: nat): Message {
    Message(Id(n), CUSTOMER, QUESTION, LINE)
  }

  /** A known number and a question the catalogue does not answer. */
  const UNMATCHED := Env(Some(Context(BRAND, Some("care@uri.example"), None)), None, 0, false)

  function Here(s: Sys, pid: nat): Setting {
    Setting(UNMATCHED, s.clock, pid, UP)
  }

  /** The setting of every move before the clock first ticks. */
  ghost predicate Early(e: Setting) {
    e.env == UNMATCHED && Calm(e.net) && e.now == 0.0
  }

  /** The one conversation, if it has begun. */
  predicate OneOpen(cfg: Config, w: World) {
    && |w.convs| <= 1
    && (|w.convs| == 1 ==>
          && w.convs[0].state != Escalated && HasKey(w.convs[0], cfg.hash(Normalize(CUSTOMER)), BRAND)
          && w.convs[0].phoneEncrypted.Some? && w.convs[0].lastMessageAt == 0.0)
  }

  /** An attempt on the way to its holding reply. */
  predicate Waiting(cfg: Config, x: Alone, n: nat, pc: Pc) {
    && x.p.pc == pc && Shape(x.p) && x.p.alive && x.p.started == x.p.at == 0.0
    && x.p.role.Attempt? && x.p.role.msg == Msg(n)
    && (x.p.context.Some? ==> x.p.context.value.brand == BRAND)
    && OneOpen(cfg, x.w)
    && (pc == Touching || pc == LoggingInbound || pc == Answering || pc == Sending ==>
          |x.w.convs| == 1 && x.p.conv == Some(0) && x.p.snap.value.state != Escalated)
    && (pc == Sending ==> x.p.answer == None)
  }

  /** Nothing but its own claim is added on the way. */
  predicate OnlyClaims(x: Alone, y: Alone, n: nat) {
    forall ref :: ref in y.w.claims ==> ref in x.w.claims || ref == Inbound(Id(n))
  }

  predicate Coming(cfg: Config, x: Alone, n: nat) {
    && Waiting(cfg, x, n, x.p.pc)
    && 6 <= Remaining(x.p.pc) <= 13
    && (x.p.pc == Resolving || x.p.pc == Claiming ==> Inbound(Id(n)) !in x.w.claims)
    && (x.p.pc == Creating ==> x.w.convs == [])
  }

  /** One move on, still on the way, with no claim but its own added. */
  predicate Approaches(cfg: Config, x: Alone, y: Alone, n: nat) {
    Coming(cfg, y, n) && Remaining(y.p.pc) < Remaining(x.p.pc) && OnlyClaims(x, y, n)
  }

  lemma WaitingBegins(cfg: Config, x: Alone, e: Setting, n: nat)
    requires Coming(cfg, x, n) && x.p.pc == Resolving && Early(e)
    ensures Approaches(cfg, x, Move(cfg, x, e), n)
  {
  }

  lemma WaitingClaims(cfg: Config, x: Alone, e: Setting, n: nat)
    requires Coming(cfg, x, n) && x.p.pc == Claiming && Early(e)
    ensures Approaches(cfg, x, Move(cfg, x, e), n)
  {
  }

  lemma WaitingFinds(cfg: Config, x: Alone, e: Setting, n: nat)
    requires Coming(cfg, x, n) && x.p.pc == Finding && Early(e)
    ensures Approaches(cfg, x, Move(cfg, x, e), n)
  {
  }

  lemma WaitingCreates(cfg: Config, x: Alone, e: Setting, n: nat)
    requires Coming(cfg, x, n) && x.p.pc == Creating && Early(e)
    ensures Approaches(cfg, x, Move(cfg, x, e), n)
  {
  }

  lemma WaitingTouches(cfg: Config, x: Alone, e: Setting, n: nat)
    requires Coming(cfg, x, n) && x.p.pc == Touching && Early(e)
    ensures Approaches(cfg, x, Move(cfg, x, e), n)
  {
  }

  lemma WaitingLogs(cfg: Config, x: Alone, e: Setting, n: nat)
    requires Coming(cfg, x, n) && x.p.pc == LoggingInbound && Early(e)
    ensures Approaches(cfg, x, Move(cfg, x, e), n)
  {
  }

  lemma WaitingAnswers(cfg: Config, x: Alone, e: Setting, n: nat)
    requires Coming(cfg, x, n) && x.p.pc == Answering && Early(e)
    ensures Approaches(cfg, x, Move(cfg, x, e), n)
  {
  }

  lemma ComingMoves(cfg: Config, x: Alone, e: Setting, n: nat)
    requires Coming(cfg, x, n) && x.p.pc != Sending && Early(e)
    ensures Approaches(cfg, x, Move(cfg, x, e), n)
  {
    match x.p.pc
    case Resolving => WaitingBegins(cfg, x, e, n);
    case Claiming => WaitingClaims(cfg, x, e, n);
    case Finding => WaitingFinds(cfg, x, e, n);
    case Creating => WaitingCreates(cfg, x, e, n);
    case Touching => WaitingTouches(cfg, x, e, n);
    case LoggingInbound => WaitingLogs(cfg, x, e, n);
    case Answering => WaitingAnswers(cfg, x, e, n);
  }

  /** Only the step that escalates is an escalation. */
  lemma NoEscalation(cfg: Config, x: Alone, e: Setting)
    requires Shape(x.p) && !x.p.pc.Ended? && x.p.pc != Escalating
    ensures Count(Move(cfg, x, e).w.oplog, EscalationOf(0)) == Count(x.w.oplog, EscalationOf(0))
  {
    CountAppend(x.w.oplog, Request(cfg, x.p, e.env, e.nonce), EscalationOf(0));
  }

  lemma ComingIsLive(cfg: Config, x: Alone, n: nat)
    requires Coming(cfg, x, n)
    ensures Live(x.p) && Shape(x.p) && x.p.pc != Escalating
  {
  }

  lemma ComesCloser(cfg: Config, s: Sys, pid: nat, n: nat) returns (t: Sys)
    requires Reachable(cfg, s) && pid < |s.procs| && Coming(cfg, View(s, pid), n) && s.procs[pid].pc != Sending
    requires s.clock == 0.0
    ensures Reachable(cfg, t) && t.clock == 0.0 && t.jobs == s.jobs && |t.procs| == |s.procs|
            && t.procs == s.procs[pid := t.procs[pid]]
    ensures Approaches(cfg, View(s, pid), View(t, pid), n)
    ensures Count(t.w.oplog, EscalationOf(0)) == Count(s.w.oplog, EscalationOf(0))
  {
    var x, e := View(s, pid), Here(s, pid);
    ComingIsLive(cfg, x, n);
    t := Proceed(cfg, s, pid, e);
    assert Approaches(cfg, x, View(t, pid), n) by { ComingMoves(cfg, x, e, n); }
    assert Count(t.w.oplog, EscalationOf(0)) == Count(s.w.oplog, EscalationOf(0)) by { NoEscalation(cfg, x, e); }
  }

  /** An attempt left alone reaches its send. */
  lemma {:induction false} ReachesSending(cfg: Config, s: Sys, pid: nat, n: nat) returns (t: Sys)
    requires Reachable(cfg, s) && s.clock == 0.0 && pid < |s.procs| && Coming(cfg, View(s, pid), n)
    ensures Reachable(cfg, t) && t.clock == 0.0 && t.jobs == s.jobs
    ensures |t.procs| == |s.procs| && t.procs == s.procs[pid := t.procs[pid]]
    ensures Waiting(cfg, View(t, pid), n, Sending) && OnlyClaims(View(s, pid), View(t, pid), n)
    ensures Count(t.w.oplog, EscalationOf(0)) == Count(s.w.oplog, EscalationOf(0))
    decreases Remaining(s.procs[pid].pc)
  {
    if s.procs[pid].pc == Sending {
      t := s;
    } else {
      var next := ComesCloser(cfg, s, pid, n);
      t := ReachesSending(cfg, next, pid, n);
    }
  }

  /** The first `n` of `slots` deliveries have an attempt about to send; the others are queued. */
  ghost predicate LinedUp(cfg: Config, s: Sys, n: nat) {
    && Reachable(cfg, s) && s.clock == 0.0 && OneOpen(cfg, s.w)
    && |s.jobs| == cfg.slots && |s.procs| == n <= cfg.slots
    && (forall m :: n <= m < cfg.slots ==> s.jobs[m].msg == Msg(m) && s.jobs[m].status == Queued)
    && (forall m :: n <= m ==> Inbound(Id(m)) !in s.w.claims)
    && (forall i :: 0 <= i < n ==> Waiting(cfg, View(s, i), i, Sending))
  }

  lemma {:induction false} Delivered(cfg: Config, n: nat) returns (s: Sys)
    requires n <= cfg.slots
    ensures Reachable(cfg, s) && s.clock == 0.0 && s.w == EMPTY_WORLD && s.procs == [] && |s.jobs| == n
    ensures forall m :: 0 <= m < n ==> s.jobs[m].msg == Msg(m) && s.jobs[m].status == Queued
  {
    if n == 0 {
      s := INITIAL;
      assert IsRun(cfg, [INITIAL], []);
    } else {
      var before := Delivered(cfg, n - 1);
      ReachableStep(cfg, before, Enqueue(Msg(n - 1)));
      s := Step(cfg, before, Enqueue(Msg(n - 1)));
    }
  }

  lemma DistinctIds(m: nat, n: nat)
    requires m != n
    ensures Id(m) != Id(n)
  {
    assert |Id(m)| == m + 1 && |Id(n)| == n + 1;
  }

  lemma StillWaiting(cfg: Config, w: World, p: Proc, m: nat, x: Alone, n: nat)
    requires Waiting(cfg, Alone(w, p), m, Sending) && Waiting(cfg, x, n, Sending)
    ensures Waiting(cfg, Alone(x.w, p), m, Sending)
  {
  }

  lemma StartsNext(cfg: Config, s: Sys, n: nat) returns (t: Sys)
    requires n < cfg.slots && LinedUp(cfg, s, n)
    ensures Reachable(cfg, t) && t.clock == 0.0 && t.w == s.w && |t.procs| == n + 1 && t.procs[..n] == s.procs
    ensures |t.jobs| == cfg.slots && t.jobs[n + 1..] == s.jobs[n + 1..]
    ensures Coming(cfg, View(t, n), n)
  {
    ReachableStep(cfg, s, Start(n));
    t := Step(cfg, s, Start(n));
  }

  lemma JoinsLine(cfg: Config, s: Sys, started: Sys, t: Sys, n: nat)
    requires n < cfg.slots && LinedUp(cfg, s, n)
    requires started.w == s.w && |started.procs| == n + 1 && started.procs[..n] == s.procs
    requires |started.jobs| == cfg.slots && started.jobs[n + 1..] == s.jobs[n + 1..]
    requires Reachable(cfg, t) && t.clock == 0.0 && t.jobs == started.jobs && |t.procs| == n + 1
             && t.procs == started.procs[n := t.procs[n]]
    requires Waiting(cfg, View(t, n), n, Sending) && OnlyClaims(View(started, n), View(t, n), n)
    ensures LinedUp(cfg, t, n + 1)
  {
    forall m | n + 1 <= m ensures Inbound(Id(m)) !in t.w.claims {
      DistinctIds(m, n);
    }
    forall m | n + 1 <= m < cfg.slots ensures t.jobs[m] == s.jobs[m] {
      assert started.jobs[n + 1..][m - n - 1] == s.jobs[n + 1..][m - n - 1];
    }
    forall i | 0 <= i < n + 1 ensures Waiting(cfg, View(t, i), i, Sending) {
      if i < n {
        assert t.procs[i] == started.procs[..n][i];
        assert Waiting(cfg, View(s, i), i, Sending);
        StillWaiting(cfg, s.w, s.procs[i], i, View(t, n), n);
      }
    }
  }

  lemma {:induction false} LineUp(cfg: Config, n: nat) returns (s: Sys)
    requires n <= cfg.slots
    ensures LinedUp(cfg, s, n)
  {
    if n == 0 {
      s := Delivered(cfg, cfg.slots);
    } else {
      var before := LineUp(cfg, n - 1);
      var started := StartsNext(cfg, before, n - 1);
      s := ReachesSending(cfg, started, n - 1, n - 1);
      JoinsLine(cfg, before, started, s, n - 1);
    }
  }

  /** The same customer, reached by the same number, last heard of at the same time. */
  predicate SameCustomer(before: Conversation, after: Conversation) {
    && after.phoneHash == before.phoneHash && after.brand == before.brand
    && after.phoneEncrypted == before.phoneEncrypted && after.lastMessageAt == before.lastMessageAt
  }

  /** The first attempt in line, from its send to its escalation. */
  predicate Escaping(x: Alone, pc: Pc) {
    && x.p.pc == pc && Shape(x.p) && x.p.alive && x.p.role.Attempt? && x.p.conv == Some(0) && x.p.answer == None
    && |x.w.convs| == 1
    && (pc == Notifying ==> x.w.convs[0].state == Escalated)
  }

  lemma EscapingSends(cfg: Config, x: Alone, e: Setting)
    requires Escaping(x, Sending) && Calm(e.net)
    ensures Escaping(Move(cfg, x, e), LoggingReply)
    ensures Move(cfg, x, e).w.convs == x.w.convs && Move(cfg, x, e).w.claims == x.w.claims
  {
  }

  lemma EscapingLogs(cfg: Config, x: Alone, e: Setting)
    requires Escaping(x, LoggingReply) && Calm(e.net)
    ensures Escaping(Move(cfg, x, e), Escalating)
    ensures Move(cfg, x, e).w.convs == x.w.convs && Move(cfg, x, e).w.claims == x.w.claims
  {
  }

  lemma EscapingEscalates(cfg: Config, x: Alone, e: Setting)
    requires Escaping(x, Escalating) && Calm(e.net)
    ensures Escaping(Move(cfg, x, e), Notifying)
    ensures SameCustomer(x.w.convs[0], Move(cfg, x, e).w.convs[0]) && Move(cfg, x, e).w.claims == x.w.claims
  {
  }

  /** One process has moved, and no document, claim or escalation has changed. */
  ghost predicate Calmly(cfg: Config, s: Sys, t: Sys, pid: nat) {
    && Reachable(cfg, t) && |t.procs| == |s.procs| && pid < |s.procs| && t.procs == s.procs[pid := t.procs[pid]]
    && t.w.convs == s.w.convs && t.w.claims == s.w.claims && t.clock == s.clock && t.jobs == s.jobs
    && Count(t.w.oplog, EscalationOf(0)) == Count(s.w.oplog, EscalationOf(0))
  }

  lemma EscapeSends(cfg: Config, s: Sys, pid: nat) returns (t: Sys)
    requires Reachable(cfg, s) && pid < |s.procs| && Escaping(View(s, pid), Sending)
    ensures Calmly(cfg, s, t, pid) && Escaping(View(t, pid), LoggingReply)
  {
    t := Proceed(cfg, s, pid, Here(s, pid));
    EscapingSends(cfg, View(s, pid), Here(s, pid));
    NoEscalation(cfg, View(s, pid), Here(s, pid));
  }

  lemma EscapeLogs(cfg: Config, s: Sys, pid: nat) returns (t: Sys)
    requires Reachable(cfg, s) && pid < |s.procs| && Escaping(View(s, pid), LoggingReply)
    ensures Calmly(cfg, s, t, pid) && Escaping(View(t, pid), Escalating)
  {
    t := Proceed(cfg, s, pid, Here(s, pid));
    EscapingLogs(cfg, View(s, pid), Here(s, pid));
    NoEscalation(cfg, View(s, pid), Here(s, pid));
  }

  /** An attempt about to send a holding reply, left alone, stops short of its escalation. */
  lemma ReachesEscalating(cfg: Config, s: Sys, pid: nat) returns (t: Sys)
    requires Reachable(cfg, s) && pid < |s.procs| && Escaping(View(s, pid), Sending)
    ensures Calmly(cfg, s, t, pid) && Escaping(View(t, pid), Escalating)
  {
    var logging := EscapeSends(cfg, s, pid);
    t := EscapeLogs(cfg, logging, pid);
  }

  /** One move more and the conversation is escalated. */
  lemma ReachesEscalated(cfg: Config, s: Sys, pid: nat) returns (t: Sys)
    requires Reachable(cfg, s) && pid < |s.procs| && Escaping(View(s, pid), Sending)
    ensures Reachable(cfg, t) && |t.procs| == |s.procs| && t.procs == s.procs[pid := t.procs[pid]]
    ensures IsEscalated(t, 0) && Escaping(View(t, pid), Notifying) && SameCustomer(s.w.convs[0], t.w.convs[0])
    ensures t.w.claims == s.w.claims && t.clock == s.clock && t.jobs == s.jobs
  {
    var ready := ReachesEscalating(cfg, s, pid);
    t := Proceed(cfg, ready, pid, Here(ready, pid));
    EscapingEscalates(cfg, View(ready, pid), Here(ready, pid));
  }

  lemma EscapingEnds(cfg: Config, x: Alone, e: Setting)
    requires Escaping(x, Notifying) && Calm(e.net)
    ensures var y := Move(cfg, x, e);
            y.p.pc == Ended(Completed) && y.p.role == x.p.role && y.w.convs == x.w.convs && y.w.claims == x.w.claims
  {
  }

  /** The notification, and the attempt is over. */
  lemma ReachesEnd(cfg: Config, s: Sys, pid: nat) returns (t: Sys)
    requires Reachable(cfg, s) && pid < |s.procs| && Escaping(View(s, pid), Notifying)
    ensures Reachable(cfg, t) && |t.procs| == |s.procs| && t.procs == s.procs[pid := t.procs[pid]]
    ensures t.procs[pid].pc == Ended(Completed) && t.procs[pid].role.Attempt?
    ensures t.w.convs == s.w.convs && t.w.claims == s.w.claims && t.clock == s.clock
  {
    t := Proceed(cfg, s, pid, Here(s, pid));
    EscapingEnds(cfg, View(s, pid), Here(s, pid));
  }

  /** While no attempt runs, one more message arrives and is taken up. */
  lemma AnotherStarts(cfg: Config, s: Sys, n: nat) returns (t: Sys)
    requires cfg.slots >= 1 && Reachable(cfg, s) && s.clock == 0.0
    requires OneOpen(cfg, s.w) && Inbound(Id(n)) !in s.w.claims
    requires forall i :: 0 <= i < |s.procs| ==> !LiveAttempts()(s.procs[i])
    ensures Reachable(cfg, t) && t.clock == 0.0 && t.w == s.w
    ensures |t.procs| == |s.procs| + 1 && t.procs[..|s.procs|] == s.procs && Coming(cfg, View(t, |s.procs|), n)
  {
    ReachableStep(cfg, s, Enqueue(Msg(n)));
    var queued := Step(cfg, s, Enqueue(Msg(n)));
    CountZero(queued.procs, LiveAttempts());
    ReachableStep(cfg, queued, Start(|s.jobs|));
    t := Step(cfg, queued, Start(|s.jobs|));
  }

  /** It gets as far as escalating. */
  lemma AnotherComes(cfg: Config, s: Sys, n: nat) returns (t: Sys)
    requires cfg.slots >= 1 && Reachable(cfg, s) && s.clock == 0.0
    requires OneOpen(cfg, s.w) && Inbound(Id(n)) !in s.w.claims
    requires forall i :: 0 <= i < |s.procs| ==> !LiveAttempts()(s.procs[i])
    ensures Reachable(cfg, t) && |t.procs| == |s.procs| + 1 && t.procs[..|s.procs|] == s.procs
    ensures Escaping(View(t, |s.procs|), Escalating)
    ensures Count(t.w.oplog, EscalationOf(0)) == Count(s.w.oplog, EscalationOf(0))
  {
    var pid := |s.procs|;
    var started := AnotherStarts(cfg, s, n);
    var sending := ReachesSending(cfg, started, pid, n);
    t := ReachesEscalating(cfg, sending, pid);
    assert t.procs[..pid] == started.procs[..pid];
  }

  lemma WaitingIsArmed(cfg: Config, x: Alone, n: nat)
    requires Waiting(cfg, x, n, Sending)
    ensures Armed(cfg, x.p, JaneSend(0))
  {
  }

  lemma LineIsArmed(cfg: Config, lined: Sys, s: Sys)
    requires LinedUp(cfg, lined, cfg.slots) && |s.procs| == cfg.slots >= 1
    requires s.procs == lined.procs[0 := s.procs[0]]
    ensures Loaded(cfg, s.procs, 1, cfg.slots - 1, JaneSend(0))
  {
    forall j | 1 <= j < cfg.slots ensures Armed(cfg, s.procs[j], JaneSend(0)) {
      WaitingIsArmed(cfg, View(lined, j), j);
    }
  }

  /** The bound of `Quiet.BoundedLag` is attained for every number of slots, every hash and
      every cipher; with two slots or more Jane does speak on an escalated conversation. */
  lemma LagIsAttained(cfg: Config) returns (states: seq<Sys>, actions: seq<Action>, i: nat)
    requires cfg.slots >= 1
    ensures IsRun(cfg, states, actions) && i <= |actions|
    ensures forall k :: i <= k <= |actions| ==> IsEscalated(states[k], 0)
    ensures Count(states[|actions|].w.oplog, JaneSend(0)) - Count(states[i].w.oplog, JaneSend(0)) == cfg.slots - 1
  {
    var lined := LineUp(cfg, cfg.slots);
    var s := ReachesEscalated(cfg, lined, 0);
    LineIsArmed(cfg, lined, s);
    states, actions, i := Volley(cfg, s, 1, cfg.slots - 1, JaneSend(0));
  }

  /** One visit of a retention job that keeps nothing at all. */
  const LAST_VISIT := Env(None, None, 0, true)

  /** The clock ticks and a retention job of zero days arrives. */
  lemma JobArrives(cfg: Config, s: Sys) returns (t: Sys)
    requires Reachable(cfg, s) && s.clock == 0.0 && |s.procs| == 1 && s.procs[0].started == 0.0
    ensures Reachable(cfg, t) && t.w == s.w && t.clock == 1.0
    ensures t.procs == s.procs + [Spawn(PurgeJob(0), 1.0)]
  {
    ReachableStep(cfg, s, Tick(1.0));
    var later := Step(cfg, s, Tick(1.0));
    ReachableStep(cfg, later, Arrive(PurgeJob(0)));
    t := Step(cfg, later, Arrive(PurgeJob(0)));
  }

  lemma JobPurges(cfg: Config, s: Sys) returns (t: Sys)
    requires Reachable(cfg, s) && |s.procs| == 2 && s.procs[1] == Spawn(PurgeJob(0), 1.0)
    requires |s.w.convs| == 1 && Purgeable(s.w.convs[0], 1.0)
    ensures Reachable(cfg, t) && |t.procs| == 2 && t.procs[0] == s.procs[0] && t.procs[1].role == PurgeJob(0)
    ensures |t.w.convs| == 1 && !HasPhone(t, 0)
  {
    ReachableStep(cfg, s, Advance(1, Returns, LAST_VISIT));
    t := Step(cfg, s, Advance(1, Returns, LAST_VISIT));
  }

  /** The premise of `Retention.PurgeCannotStrand` is needed: with a retention of zero days the
      number an attempt saw at its touch can be gone by the time that attempt escalates. */
  lemma NoRetentionStrands(cfg: Config) returns (touched: Sys, purged: Sys, stranded: Sys)
    requires cfg.slots >= 1
    ensures Reachable(cfg, touched) && |touched.procs| == 1
    ensures Touched(touched.procs[0], 0) && HasPhone(touched, 0)
    ensures Reachable(cfg, purged) && |purged.procs| == 2
    ensures purged.procs[0] == touched.procs[0] && purged.procs[1].role == PurgeJob(0) && !HasPhone(purged, 0)
    ensures Reachable(cfg, stranded) && |stranded.procs| == 2 && stranded.procs == purged.procs[0 := stranded.procs[0]]
    ensures IsEscalated(stranded, 0) && !HasPhone(stranded, 0)
  {
    touched := LineUp(cfg, 1);
    assert Waiting(cfg, View(touched, 0), 0, Sending);
    var job := JobArrives(cfg, touched);
    purged := JobPurges(cfg, job);
    stranded := ReachesEscalated(cfg, purged, 0);
  }
}
