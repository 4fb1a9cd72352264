/** The retention job against live escalations, with one shared clock. */
module Retention {
  import opened Options
  import opened Records
  import opened Processes
  import opened Service
  import opened Soundness
  import opened ClaimProtocol
  import opened StateMachine

  /** An attempt between its touch of a conversation and its escalation of it. */
  predicate Touched(p: Proc, c: nat) {
    && Live(p) && p.role.Attempt? && p.conv == Some(c)
    && (p.pc == LoggingInbound || p.pc == Answering || p.pc == Sending || p.pc == LoggingReply || p.pc == Escalating)
  }

  /** The retention window is at least one day. */
  predicate KeepsADay(role: Role) {
    role.PurgeJob? ==> role.days >= 1
  }

  ghost predicate Fresh(s: Sys) {
    && AllSound(s) && Timely(s)
    && (forall i :: 0 <= i < |s.procs| ==> KeepsADay(s.procs[i].role))
    && (forall i: nat, c: nat :: Recent(s, i, c))
  }

  /** A conversation an attempt has touched was last touched within the time limit of its start. */
  predicate Recent(s: Sys, i: nat, c: nat) {
    i < |s.procs| && Touched(s.procs[i], c) ==>
      c < |s.w.convs| && s.w.convs[c].lastMessageAt >= s.procs[i].started - TASK_TIME_LIMIT
  }

  predicate HasPhone(s: Sys, c: nat) {
    c < |s.w.convs| && s.w.convs[c].phoneEncrypted.Some?
  }

  /** Whoever touches a conversation now started no earlier than the time limit allows. */
  lemma LastMessageAfter(w: World, op: Op, c: nat, bound: real)
    requires Effective(w, op) && c < |w.convs| && w.convs[c].lastMessageAt >= bound
    requires op.Touch? ==> op.at >= bound
    ensures c < |Apply(w, op).convs| && Apply(w, op).convs[c].lastMessageAt >= bound
  {
  }

  lemma TouchedComesFrom(p: Proc, op: Op, applied: bool, r: Response, fault: Fault, env: Env, now: real, c: nat)
    requires Shape(p) && Live(p) && Fits(p.pc, op)
    requires Touched(After(p, op, applied, r, fault, env, now), c)
    ensures Touched(p, c) || (fault == Returns && op.Touch? && p.role.Attempt? && p.conv == Some(c))
  {
    var q := After(p, op, applied, r, fault, env, now);
    assert fault == Returns;
    assert q.pc == NextPc(if applied then Mark(p, op) else p, r, env);
  }

  lemma RecentStep(cfg: Config, s: Sys, a: Action, i: nat, c: nat)
    requires Fresh(s) && Enabled(cfg, s, a)
    ensures Recent(Step(cfg, s, a), i, c)
  {
    assert Recent(s, i, c);
    if a.Advance? && i < |s.procs| && Touched(Step(cfg, s, a).procs[i], c) {
      var p, op := s.procs[a.pid], OpOf(cfg, s, a.pid, a.env);
      var applied := Applies(cfg, s, a.pid, a.fault, a.env);
      AdvanceMoves(cfg, s, a.pid, a.fault, a.env);
      if i == a.pid {
        TouchedComesFrom(p, op, applied, Respond(s.w, op, a.env), a.fault, a.env, s.clock, c);
      }
      assert InTime(p, s.clock) && InTime(s.procs[i], s.clock);
      if applied && (i != a.pid || Touched(p, c)) {
        LastMessageAfter(s.w, op, c, s.procs[i].started - TASK_TIME_LIMIT);
      }
    }
  }

  lemma RolesStep(cfg: Config, s: Sys, a: Action)
    requires Fresh(s) && Enabled(cfg, s, a) && (a.Arrive? ==> KeepsADay(a.role))
    ensures forall i :: 0 <= i < |Step(cfg, s, a).procs| ==> KeepsADay(Step(cfg, s, a).procs[i].role)
  {
    if a.Advance? { AdvanceMoves(cfg, s, a.pid, a.fault, a.env); }
  }

  lemma FreshStep(cfg: Config, s: Sys, a: Action)
    requires Fresh(s) && Enabled(cfg, s, a) && (a.Arrive? ==> KeepsADay(a.role))
    ensures Fresh(Step(cfg, s, a))
  {
    SoundStep(cfg, s, a);
    TimelyStep(cfg, s, a);
    RolesStep(cfg, s, a);
    forall i: nat, c: nat ensures Recent(Step(cfg, s, a), i, c) {
      RecentStep(cfg, s, a, i, c);
    }
  }

  /** No retention cutoff reaches a conversation that an attempt has touched. */
  lemma CutoffTooOld(s: Sys, i: nat, purger: nat, c: nat)
    requires Fresh(s) && i < |s.procs| && Touched(s.procs[i], c)
    requires purger < |s.procs| && s.procs[purger].role.PurgeJob?
    ensures c < |s.w.convs| && s.w.convs[c].lastMessageAt > Cutoff(s.procs[purger])
  {
    assert Recent(s, i, c) && InTime(s.procs[i], s.clock) && KeepsADay(s.procs[purger].role);
  }

  /** A number present on a conversation survives every step while an attempt stands between its
      touch and its escalation, and while the conversation is escalated. */
  lemma PhoneKept(cfg: Config, s: Sys, a: Action, c: nat)
    requires Fresh(s) && Enabled(cfg, s, a) && HasPhone(s, c)
    requires IsEscalated(s, c) || exists i :: 0 <= i < |s.procs| && Touched(s.procs[i], c)
    ensures HasPhone(Step(cfg, s, a), c)
    ensures Step(cfg, s, a).w.convs[c].phoneEncrypted == s.w.convs[c].phoneEncrypted
  {
    StateEdges(cfg, s, a, c);
    if a.Advance? && Applies(cfg, s, a.pid, a.fault, a.env) {
      var op := OpOf(cfg, s, a.pid, a.env);
      RequestSigned(cfg, s.procs[a.pid], a.env, a.pid);
      WorldEdges(s.w, op, c);
      if op.UnsetPhone? {
        if !IsEscalated(s, c) {
          var i :| 0 <= i < |s.procs| && Touched(s.procs[i], c);
          CutoffTooOld(s, i, a.pid, c);
        }
      }
    }
  }

  ghost predicate RetainsADay(actions: seq<Action>) {
    forall k :: 0 <= k < |actions| && actions[k].Arrive? ==> KeepsADay(actions[k].role)
  }

  lemma {:induction false} FreshInRun(cfg: Config, states: seq<Sys>, actions: seq<Action>, k: nat)
    requires IsRun(cfg, states, actions) && RetainsADay(actions) && k <= |actions|
    ensures Fresh(states[k])
  {
    if k == 0 {
      assert Fresh(INITIAL);
    } else {
      FreshInRun(cfg, states, actions, k - 1);
      assert Follows(cfg, states, actions, k - 1);
      FreshStep(cfg, states[k - 1], actions[k - 1]);
    }
  }

  /** The purge cannot strand a live escalation: a number present once an attempt has touched the
      conversation is still there, unchanged, when that attempt escalates and for the whole
      escalated stretch that follows. */
  lemma {:induction false} PurgeCannotStrand(
    cfg: Config, states: seq<Sys>, actions: seq<Action>, pid: nat, c: nat, i: nat, j: nat, m: nat)
    requires IsRun(cfg, states, actions) && RetainsADay(actions) && i <= j && i <= m <= |actions|
    requires forall k :: i <= k <= j && k <= m ==> pid < |states[k].procs| && Touched(states[k].procs[pid], c)
    requires forall k :: j < k <= m ==> IsEscalated(states[k], c)
    requires HasPhone(states[i], c)
    ensures HasPhone(states[m], c)
    ensures states[m].w.convs[c].phoneEncrypted == states[i].w.convs[c].phoneEncrypted
  {
    if i == m {
    } else {
      PurgeCannotStrand(cfg, states, actions, pid, c, i, j, m - 1);
      FreshInRun(cfg, states, actions, m - 1);
      assert Follows(cfg, states, actions, m - 1);
      PhoneKept(cfg, states[m - 1], actions[m - 1], c);
    }
  }

  lemma PurgedStep(cfg: Config, s: Sys, a: Action, c: nat)
    requires AllSound(s) && Enabled(cfg, s, a) && c < |s.w.convs| && !HasPhone(s, c)
    ensures c < |Step(cfg, s, a).w.convs| && !HasPhone(Step(cfg, s, a), c)
  {
    StateEdges(cfg, s, a, c);
  }

  lemma PurgedInRun(cfg: Config, states: seq<Sys>, actions: seq<Action>, c: nat, k: nat)
    requires IsRun(cfg, states, actions) && k < |actions|
    requires c < |states[k].w.convs| && !HasPhone(states[k], c)
    ensures c < |states[k + 1].w.convs| && !HasPhone(states[k + 1], c)
  {
    ConvsInRun(cfg, states, actions, k);
    var s, a := states[k], actions[k];
    assert Follows(cfg, states, actions, k);
    PurgedStep(cfg, s, a, c);
  }

  /** Write-once: a number that was removed, for whatever reason, is never restored. */
  lemma {:induction false} PurgedForever(cfg: Config, states: seq<Sys>, actions: seq<Action>, c: nat, i: nat, m: nat)
    requires IsRun(cfg, states, actions) && i <= m <= |actions|
    requires c < |states[i].w.convs| && !HasPhone(states[i], c)
    ensures c < |states[m].w.convs| && !HasPhone(states[m], c)
  {
    if i == m {
    } else {
      PurgedForever(cfg, states, actions, c, i, m - 1);
      PurgedInRun(cfg, states, actions, c, m - 1);
    }
  }
}
