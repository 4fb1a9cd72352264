/** What a resolve ends: the escalation its process read, unless a newer one came between. */
module Resolves {
  import opened Options
  import opened Counting
  import opened Records
  import opened Processes
  import opened Service
  import opened Soundness
  import opened Ledger
  import opened StateMachine

  /** The document is escalated, by the very escalation the other one shows. */
  predicate SameEscalation(doc: Conversation, shown: Conversation) {
    doc.state == Escalated && doc.escalatedAt == shown.escalatedAt && doc.escalatedReason == shown.escalatedReason
  }

  /** Unless it was escalated again, the conversation is not escalated or still by the escalation shown. */
  ghost predicate Carries(s: Sys, c: nat, shown: Conversation, written: nat) {
    && c < |s.w.convs| && written <= Count(s.w.oplog, EscalationOf(c))
    && (Count(s.w.oplog, EscalationOf(c)) == written && IsEscalated(s, c) ==> SameEscalation(s.w.convs[c], shown))
  }

  lemma CarriesAfter(w: World, op: Op, c: nat)
    requires Effective(w, op) && c < |w.convs| && !EscalationOf(c)(op)
    ensures c < |Apply(w, op).convs|
    ensures var after := Apply(w, op).convs[c];
            after.state == Escalated ==>
              w.convs[c].state == Escalated && after.escalatedAt == w.convs[c].escalatedAt
              && after.escalatedReason == w.convs[c].escalatedReason
  {
  }

  lemma CarriesStep(cfg: Config, s: Sys, a: Action, c: nat, shown: Conversation, written: nat)
    requires AllSound(s) && Enabled(cfg, s, a) && Carries(s, c, shown, written)
    ensures Carries(Step(cfg, s, a), c, shown, written)
  {
    if a.Advance? && Applies(cfg, s, a.pid, a.fault, a.env) {
      var op := OpOf(cfg, s, a.pid, a.env);
      CountAppend(s.w.oplog, op, EscalationOf(c));
      if EscalationOf(c)(op) {
        ConvsGrow(s.w, op);
      } else {
        CarriesAfter(s.w, op, c);
      }
    } else if a.Expire? {
      CountAppend(s.w.oplog, ExpireClaim(a.ref), EscalationOf(c));
    }
  }

  /** A resolve about to write, with what it read. */
  predicate Holding(s: Sys, pid: nat, c: nat, shown: Conversation) {
    && pid < |s.procs| && s.procs[pid].pc == WritingResolve
    && s.procs[pid].conv == Some(c) && s.procs[pid].snap == Some(shown)
  }

  lemma ReadingShows(cfg: Config, s: Sys, a: Action, pid: nat, c: nat)
    requires AllSound(s) && Enabled(cfg, s, a) && ReadsEscalated(cfg, s, a, pid, c)
    ensures Holding(Step(cfg, s, a), pid, c, s.w.convs[c]) && Step(cfg, s, a).w == s.w
  {
  }

  lemma WaitingKeeps(cfg: Config, s: Sys, a: Action, pid: nat)
    requires AllSound(s) && Enabled(cfg, s, a) && pid < |s.procs| && s.procs[pid].pc == WritingResolve
    requires Step(cfg, s, a).procs[pid].pc == WritingResolve
    ensures Step(cfg, s, a).procs[pid].conv == s.procs[pid].conv && Step(cfg, s, a).procs[pid].snap == s.procs[pid].snap
  {
    if a.Advance? && a.pid == pid {
      var op := OpOf(cfg, s, pid, a.env);
      OnlyReadingLeadsToWriting(s.procs[pid], op, Applies(cfg, s, pid, a.fault, a.env), Respond(s.w, op, a.env),
                                a.fault, a.env, s.clock);
    }
  }

  /** Everything known of a resolve about to write in state `k` that read in state `r`. */
  ghost predicate ReadAt(cfg: Config, states: seq<Sys>, actions: seq<Action>, r: nat, k: nat, pid: nat, c: nat) {
    && r < k && k < |states| && r < |actions| && ReadsEscalated(cfg, states[r], actions[r], pid, c)
    && Holding(states[k], pid, c, states[r].w.convs[c])
    && Carries(states[k], c, states[r].w.convs[c], Count(states[r].w.oplog, EscalationOf(c)))
  }

  lemma ReadNow(cfg: Config, states: seq<Sys>, actions: seq<Action>, k: nat, pid: nat, c: nat)
    requires IsRun(cfg, states, actions) && 0 < k <= |actions|
    requires ReadsEscalated(cfg, states[k - 1], actions[k - 1], pid, c)
    ensures ReadAt(cfg, states, actions, k - 1, k, pid, c)
  {
    assert Follows(cfg, states, actions, k - 1);
    ConvsInRun(cfg, states, actions, k - 1);
    ReadingShows(cfg, states[k - 1], actions[k - 1], pid, c);
  }

  lemma ReadStill(cfg: Config, states: seq<Sys>, actions: seq<Action>, r: nat, k: nat, pid: nat, c: nat)
    requires IsRun(cfg, states, actions) && 0 < k <= |actions| && ReadAt(cfg, states, actions, r, k - 1, pid, c)
    requires pid < |states[k].procs| && states[k].procs[pid].pc == WritingResolve
    ensures ReadAt(cfg, states, actions, r, k, pid, c)
  {
    assert Follows(cfg, states, actions, k - 1);
    ConvsInRun(cfg, states, actions, k - 1);
    CarriesStep(cfg, states[k - 1], actions[k - 1], c, states[r].w.convs[c], Count(states[r].w.oplog, EscalationOf(c)));
    WaitingKeeps(cfg, states[k - 1], actions[k - 1], pid);
  }

  lemma {:induction false} ReadInRun(
    cfg: Config, states: seq<Sys>, actions: seq<Action>, k: nat, pid: nat, c: nat) returns (r: nat)
    requires IsRun(cfg, states, actions) && k <= |actions| && pid < |states[k].procs|
    requires states[k].procs[pid].pc == WritingResolve && states[k].procs[pid].conv == Some(c)
    ensures ReadAt(cfg, states, actions, r, k, pid, c)
  {
    ResolveReadInRun(cfg, states, actions, k - 1, pid, c);
    if ReadsEscalated(cfg, states[k - 1], actions[k - 1], pid, c) {
      r := k - 1;
      ReadNow(cfg, states, actions, k, pid, c);
    } else {
      r := ReadInRun(cfg, states, actions, k - 1, pid, c);
      ReadStill(cfg, states, actions, r, k, pid, c);
    }
  }

  /** A resolve about to write had read the conversation as escalated; and if no escalation of it took
      effect since, the conversation is no longer escalated or is so by the escalation it read. */
  lemma ResolveEndsWhatItRead(cfg: Config, states: seq<Sys>, actions: seq<Action>, k: nat, pid: nat, c: nat)
    returns (r: nat)
    requires IsRun(cfg, states, actions) && k <= |actions| && pid < |states[k].procs|
    requires states[k].procs[pid].pc == WritingResolve && states[k].procs[pid].conv == Some(c)
    ensures r < k && ReadsEscalated(cfg, states[r], actions[r], pid, c)
    ensures states[k].procs[pid].snap == Some(states[r].w.convs[c]) && c < |states[k].w.convs|
    ensures Count(states[k].w.oplog, EscalationOf(c)) == Count(states[r].w.oplog, EscalationOf(c)) ==>
              !IsEscalated(states[k], c) || SameEscalation(states[k].w.convs[c], states[r].w.convs[c])
  {
    r := ReadInRun(cfg, states, actions, k, pid, c);
  }
}
