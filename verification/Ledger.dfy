/** Sends against the message log, and the order of an escalation's side effects. */
module Ledger {
  import opened Options
  import opened Counting
  import opened Records
  import opened Processes
  import opened Service
  import opened Soundness

  /** Which bodies are counted: one, or all of them. */
  predicate Counts(b: Option<string>, body: string) {
    b.None? || b.value == body
  }

  function SendOn(c: nat, k: Kind, b: Option<string>): Op -> bool {
    (op: Op) => op.Send? && op.conv == c && KindOfSender(op.sender) == k && Counts(b, op.body)
  }
  function RowOn(c: nat, k: Kind, b: Option<string>): Row -> bool {
    (row: Row) => row.conv == c && KindOfRow(row.kind) == Some(k) && Counts(b, row.body)
  }
  function EscalationOf(c: nat): Op -> bool { (op: Op) => op.SetEscalated? && op.conv == c }
  function NoticeOf(c: nat): Op -> bool { (op: Op) => op.Notify? && op.conv == c }

  /** It speaks on the conversation, in that way and with such a body. */
  predicate Speaks(p: Proc, c: nat, k: Kind, b: Option<string>) {
    Claims(p) && p.conv == Some(c) && KindOf(p) == k && Counts(b, BodyOf(p))
  }

  function SentOn(c: nat, k: Kind, b: Option<string>): Proc -> bool {
    (p: Proc) => Speaks(p, c, k, b) && p.sent
  }
  function LoggedOn(c: nat, k: Kind, b: Option<string>): Proc -> bool {
    (p: Proc) => Speaks(p, c, k, b) && p.logged
  }
  function UnloggedOn(c: nat, k: Kind, b: Option<string>): Proc -> bool {
    (p: Proc) => Speaks(p, c, k, b) && p.sent && !p.logged
  }
  function UnloggedLive(c: nat, k: Kind, b: Option<string>): Proc -> bool {
    (p: Proc) => Speaks(p, c, k, b) && p.sent && !p.logged && Live(p)
  }
  function UnloggedDead(c: nat, k: Kind, b: Option<string>): Proc -> bool {
    (p: Proc) => Speaks(p, c, k, b) && p.sent && !p.logged && !Live(p)
  }
  function EscalatedOn(c: nat): Proc -> bool { (p: Proc) => p.role.Attempt? && p.escalated && p.conv == Some(c) }
  function NotifiedOn(c: nat): Proc -> bool { (p: Proc) => p.role.Attempt? && p.notified && p.conv == Some(c) }

  ghost predicate SendsMatch(s: Sys, c: nat, k: Kind, b: Option<string>) {
    && Count(s.w.oplog, SendOn(c, k, b)) == Count(s.procs, SentOn(c, k, b))
    && Count(s.w.rows, RowOn(c, k, b)) == Count(s.procs, LoggedOn(c, k, b))
  }

  ghost predicate EscalationsMatch(s: Sys, c: nat) {
    && Count(s.w.oplog, EscalationOf(c)) == Count(s.procs, EscalatedOn(c))
    && Count(s.w.oplog, NoticeOf(c)) == Count(s.procs, NotifiedOn(c))
  }

  /** An escalated state was written by an escalation. */
  ghost predicate EscalationWritten(w: World, c: nat) {
    c < |w.convs| && w.convs[c].state == Escalated ==> Count(w.oplog, EscalationOf(c)) > 0
  }

  ghost predicate LedgerInvariant(s: Sys) {
    && AllSound(s)
    && (forall c, k, b :: SendsMatch(s, c, k, b))
    && (forall c :: EscalationsMatch(s, c) && EscalationWritten(s.w, c))
  }

  lemma SendsMove(s: Sys, t: Sys, pid: nat, op: Op, applied: bool, c: nat, k: Kind, b: Option<string>)
    requires MakesMove(s, t, pid, op, applied) && SendsMatch(s, c, k, b)
    ensures SendsMatch(t, c, k, b)
  {
    var q := t.procs[pid];
    Tally(s.w.oplog, op, applied, SendOn(c, k, b), s.procs, pid, q, SentOn(c, k, b));
    var row := if op.InsertRow? then op.row else Row(0, FromCustomer, "", 0.0);
    Tally(s.w.rows, row, applied && op.InsertRow?, RowOn(c, k, b), s.procs, pid, q, LoggedOn(c, k, b));
  }

  lemma EscalationsMove(s: Sys, t: Sys, pid: nat, op: Op, applied: bool, c: nat)
    requires MakesMove(s, t, pid, op, applied) && EscalationsMatch(s, c)
    ensures EscalationsMatch(t, c)
  {
    var q := t.procs[pid];
    Tally(s.w.oplog, op, applied, EscalationOf(c), s.procs, pid, q, EscalatedOn(c));
    Tally(s.w.oplog, op, applied, NoticeOf(c), s.procs, pid, q, NotifiedOn(c));
  }

  lemma WrittenAfter(w: World, op: Op, c: nat)
    requires Effective(w, op) && EscalationWritten(w, c)
    requires op.InsertConv? ==> op.doc.state != Escalated
    ensures EscalationWritten(Apply(w, op), c)
  {
    CountAppend(w.oplog, op, EscalationOf(c));
  }

  lemma LedgerAppend(s: Sys, p: Proc, c: nat, k: Kind, b: Option<string>)
    requires !p.sent && !p.logged && !p.escalated && !p.notified
    requires SendsMatch(s, c, k, b) && EscalationsMatch(s, c)
    ensures SendsMatch(s.(procs := s.procs + [p]), c, k, b) && EscalationsMatch(s.(procs := s.procs + [p]), c)
  {
    CountAppend(s.procs, p, SentOn(c, k, b));
    CountAppend(s.procs, p, LoggedOn(c, k, b));
    CountAppend(s.procs, p, EscalatedOn(c));
    CountAppend(s.procs, p, NotifiedOn(c));
  }

  lemma LedgerCrash(s: Sys, pid: nat, c: nat, k: Kind, b: Option<string>)
    requires pid < |s.procs| && SendsMatch(s, c, k, b) && EscalationsMatch(s, c)
    ensures var t := s.(procs := s.procs[pid := s.procs[pid].(alive := false)]);
            SendsMatch(t, c, k, b) && EscalationsMatch(t, c)
  {
    var q := s.procs[pid].(alive := false);
    CountUpdate(s.procs, pid, q, SentOn(c, k, b));
    CountUpdate(s.procs, pid, q, LoggedOn(c, k, b));
    CountUpdate(s.procs, pid, q, EscalatedOn(c));
    CountUpdate(s.procs, pid, q, NotifiedOn(c));
  }

  lemma LedgerExpire(s: Sys, ref: ClaimRef, c: nat, k: Kind, b: Option<string>)
    requires ref in s.w.claims && SendsMatch(s, c, k, b) && EscalationsMatch(s, c)
    ensures var t := s.(w := Apply(s.w, ExpireClaim(ref))); SendsMatch(t, c, k, b) && EscalationsMatch(t, c)
  {
    CountAppend(s.w.oplog, ExpireClaim(ref), SendOn(c, k, b));
    CountAppend(s.w.oplog, ExpireClaim(ref), EscalationOf(c));
    CountAppend(s.w.oplog, ExpireClaim(ref), NoticeOf(c));
  }

  lemma LedgerStepAt(cfg: Config, s: Sys, a: Action, c: nat, k: Kind, b: Option<string>)
    requires LedgerInvariant(s) && Enabled(cfg, s, a)
    ensures SendsMatch(Step(cfg, s, a), c, k, b) && EscalationsMatch(Step(cfg, s, a), c)
    ensures EscalationWritten(Step(cfg, s, a).w, c)
  {
    assert SendsMatch(s, c, k, b) && EscalationsMatch(s, c) && EscalationWritten(s.w, c);
    match a {
      case Start(job) => LedgerAppend(s, Spawn(Attempt(job, s.jobs[job].msg), s.clock), c, k, b);
      case Arrive(role) => LedgerAppend(s, Spawn(role, s.clock), c, k, b);
      case Advance(pid, fault, env) =>
        var t, op, applied := Step(cfg, s, a), OpOf(cfg, s, pid, env), Applies(cfg, s, pid, fault, env);
        AdvanceMoves(cfg, s, pid, fault, env);
        SendsMove(s, t, pid, op, applied, c, k, b);
        EscalationsMove(s, t, pid, op, applied, c);
        if applied { WrittenAfter(s.w, op, c); }
      case Crash(pid, _) => LedgerCrash(s, pid, c, k, b);
      case Expire(ref) =>
        LedgerExpire(s, ref, c, k, b);
        WrittenAfter(s.w, ExpireClaim(ref), c);
      case _ =>
    }
  }

  lemma LedgerStep(cfg: Config, s: Sys, a: Action)
    requires LedgerInvariant(s) && Enabled(cfg, s, a)
    ensures LedgerInvariant(Step(cfg, s, a))
  {
    SoundStep(cfg, s, a);
    forall c, k, b ensures SendsMatch(Step(cfg, s, a), c, k, b) { LedgerStepAt(cfg, s, a, c, k, b); }
    forall c ensures EscalationsMatch(Step(cfg, s, a), c) && EscalationWritten(Step(cfg, s, a).w, c) {
      LedgerStepAt(cfg, s, a, c, JaneAnswer, None);
    }
  }

  lemma {:induction false} LedgerInRun(cfg: Config, states: seq<Sys>, actions: seq<Action>, k: nat)
    requires IsRun(cfg, states, actions) && k <= |actions|
    ensures LedgerInvariant(states[k])
  {
    if k == 0 {
      assert LedgerInvariant(INITIAL);
    } else {
      LedgerInRun(cfg, states, actions, k - 1);
      assert Follows(cfg, states, actions, k - 1);
      LedgerStep(cfg, states[k - 1], actions[k - 1]);
    }
  }

  lemma LedgerReachable(cfg: Config, s: Sys)
    requires Reachable(cfg, s)
    ensures LedgerInvariant(s)
  {
    var states, actions :| IsRun(cfg, states, actions) && states[|actions|] == s;
    LedgerInRun(cfg, states, actions, |actions|);
  }

  /** Conservation: every message the service delivered on a conversation is a logged row with the very
      same body, is still on its way to the log, or belongs to a process that ended in between. */
  lemma SendsAreConserved(cfg: Config, s: Sys, c: nat, k: Kind, b: Option<string>)
    requires Reachable(cfg, s)
    ensures Count(s.w.oplog, SendOn(c, k, b))
            == Count(s.w.rows, RowOn(c, k, b))
               + Count(s.procs, UnloggedLive(c, k, b)) + Count(s.procs, UnloggedDead(c, k, b))
  {
    LedgerReachable(cfg, s);
    assert SendsMatch(s, c, k, b);
    CountSplit(s.procs, SentOn(c, k, b), LoggedOn(c, k, b), UnloggedOn(c, k, b));
    CountSplit(s.procs, UnloggedOn(c, k, b), UnloggedLive(c, k, b), UnloggedDead(c, k, b));
  }

  /** What every holding reply says. */
  const HOLDING: Option<string> := Some("Let me check that and get back to you shortly!")

  /** Escalation is never silent: notifications, escalation writes, logged holding replies and
      delivered holding replies are ordered, so an escalated conversation has had its reply. */
  lemma EscalationIsNeverSilent(cfg: Config, s: Sys, c: nat)
    requires Reachable(cfg, s)
    ensures Count(s.w.oplog, NoticeOf(c)) <= Count(s.w.oplog, EscalationOf(c))
            <= Count(s.w.rows, RowOn(c, JaneHolding, HOLDING)) <= Count(s.w.oplog, SendOn(c, JaneHolding, HOLDING))
    ensures c < |s.w.convs| && s.w.convs[c].state == Escalated ==>
              && Count(s.w.oplog, SendOn(c, JaneHolding, HOLDING)) > 0
              && Count(s.w.rows, RowOn(c, JaneHolding, HOLDING)) > 0
  {
    LedgerReachable(cfg, s);
    assert SendsMatch(s, c, JaneHolding, HOLDING) && EscalationsMatch(s, c) && EscalationWritten(s.w, c);
    CountMono(s.procs, NotifiedOn(c), EscalatedOn(c));
    CountMono(s.procs, EscalatedOn(c), LoggedOn(c, JaneHolding, HOLDING));
    CountMono(s.procs, LoggedOn(c, JaneHolding, HOLDING), SentOn(c, JaneHolding, HOLDING));
  }

  function UnnotifiedOn(c: nat): Proc -> bool {
    (p: Proc) => EscalatedOn(c)(p) && !p.notified
  }
  function UnnotifiedLive(c: nat): Proc -> bool {
    (p: Proc) => EscalatedOn(c)(p) && !p.notified && Live(p)
  }
  function UnnotifiedOver(c: nat): Proc -> bool {
    (p: Proc) => EscalatedOn(c)(p) && !p.notified && !Live(p)
  }

  /** Which escalations are notified: all but those of attempts still on the way there and of
      attempts that ended or died between their escalation and its notification. */
  lemma NotificationsAreAccounted(cfg: Config, s: Sys, c: nat)
    requires Reachable(cfg, s)
    ensures Count(s.w.oplog, EscalationOf(c))
            == Count(s.w.oplog, NoticeOf(c)) + Count(s.procs, UnnotifiedLive(c)) + Count(s.procs, UnnotifiedOver(c))
  {
    LedgerReachable(cfg, s);
    assert EscalationsMatch(s, c);
    CountSplit(s.procs, EscalatedOn(c), NotifiedOn(c), UnnotifiedOn(c));
    CountSplit(s.procs, UnnotifiedOn(c), UnnotifiedLive(c), UnnotifiedOver(c));
  }
}
