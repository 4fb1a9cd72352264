/** Whose conversation a task acts on: that of its sender's normal form and its brand, and no other's. */
module Sharing {
  import opened Phone
  import opened Records
  import opened Processes
  import opened Service
  import opened Soundness
  import opened StateMachine
  import opened Destination

  /** A task's conversation has the key of its sender and of the brand its number resolved to. */
  predicate ActsOnItsOwn(cfg: Config, convs: seq<Conversation>, p: Proc) {
    IsTask(p) && p.conv.Some? ==>
      && p.context.Some? && p.conv.value < |convs|
      && HasKey(convs[p.conv.value], cfg.hash(Normalize(p.role.msg.sender)), p.context.value.brand)
  }

  ghost predicate AllOnTheirOwn(cfg: Config, s: Sys) {
    AllSound(s) && forall i :: 0 <= i < |s.procs| ==> ActsOnItsOwn(cfg, s.w.convs, s.procs[i])
  }

  lemma OwnPersists(cfg: Config, before: seq<Conversation>, after: seq<Conversation>, p: Proc, q: Proc)
    requires ActsOnItsOwn(cfg, before, p) && KeysPersist(before, after)
    requires q.role == p.role && q.context == p.context && q.conv == p.conv
    ensures ActsOnItsOwn(cfg, after, q)
  {
  }

  /** A lookup answers with the conversation asked for. */
  lemma OwnLearned(
    cfg: Config, before: seq<Conversation>, after: seq<Conversation>, p: Proc, r: Response, q: Proc)
    requires ActsOnItsOwn(cfg, before, p) && KeysPersist(before, after) && Learns(p, r, q) && IsTask(p)
    requires Answers(cfg, p, after, r) && p.pc != ReadingRegistry
    requires p.pc == Resolving ==> p.conv.None? && !r.Found?
    ensures ActsOnItsOwn(cfg, after, q)
  {
  }

  lemma MoverOnItsOwn(cfg: Config, s: Sys, pid: nat, fault: Fault, env: Env)
    requires AllOnTheirOwn(cfg, s) && CanAdvance(s, pid)
    ensures ActsOnItsOwn(cfg, Step(cfg, s, Advance(pid, fault, env)).w.convs, ProcAfter(cfg, s, pid, fault, env))
  {
    var p, op, q := s.procs[pid], OpOf(cfg, s, pid, env), ProcAfter(cfg, s, pid, fault, env);
    var applied, r := Applies(cfg, s, pid, fault, env), Respond(s.w, op, env);
    var after := Step(cfg, s, Advance(pid, fault, env)).w.convs;
    RequestSigned(cfg, p, env, pid);
    KeysPersistAfter(s.w, op);
    if fault != Returns {
      RaisingKeepsData(p, op, applied, r, fault, env, s.clock);
      OwnPersists(cfg, s.w.convs, after, p, q);
    } else {
      RespondAnswers(cfg, s.w, p, env, pid);
      AfterLearns(p, op, applied, r, fault, env, s.clock);
      if IsTask(p) && Learns(p, r, q) {
        OwnLearned(cfg, s.w.convs, after, p, r, q);
      }
    }
  }

  lemma OwnStep(cfg: Config, s: Sys, a: Action)
    requires AllOnTheirOwn(cfg, s) && Enabled(cfg, s, a)
    ensures AllOnTheirOwn(cfg, Step(cfg, s, a))
  {
    SoundStep(cfg, s, a);
    var t := Step(cfg, s, a);
    if a.Advance? {
      MoverOnItsOwn(cfg, s, a.pid, a.fault, a.env);
      RequestSigned(cfg, s.procs[a.pid], a.env, a.pid);
      KeysPersistAfter(s.w, OpOf(cfg, s, a.pid, a.env));
      forall i | 0 <= i < |t.procs| ensures ActsOnItsOwn(cfg, t.w.convs, t.procs[i]) {
        if i != a.pid { OwnPersists(cfg, s.w.convs, t.w.convs, s.procs[i], t.procs[i]); }
      }
    }
  }

  lemma {:induction false} OwnInRun(cfg: Config, states: seq<Sys>, actions: seq<Action>, k: nat)
    requires IsRun(cfg, states, actions) && k <= |actions|
    ensures AllOnTheirOwn(cfg, states[k])
  {
    if k == 0 {
      assert AllSound(INITIAL);
    } else {
      OwnInRun(cfg, states, actions, k - 1);
      assert Follows(cfg, states, actions, k - 1);
      OwnStep(cfg, states[k - 1], actions[k - 1]);
    }
  }

  /** Two tasks of a run act on the same conversation if and only if they have the same brand and
      their senders normalise equally, the hash being injective. */
  lemma SharedExactlyWhenNormalEqual(cfg: Config, s: Sys, i: nat, j: nat)
    requires HashInjective(cfg) && Reachable(cfg, s) && i < |s.procs| && j < |s.procs|
    requires IsTask(s.procs[i]) && s.procs[i].conv.Some? && IsTask(s.procs[j]) && s.procs[j].conv.Some?
    ensures var p, q := s.procs[i], s.procs[j];
            && p.context.Some? && q.context.Some?
            && (p.conv == q.conv
                <==> p.context.value.brand == q.context.value.brand
                     && Normalize(p.role.msg.sender) == Normalize(q.role.msg.sender))
  {
    var states, actions :| IsRun(cfg, states, actions) && states[|actions|] == s;
    OwnInRun(cfg, states, actions, |actions|);
    ConvsInRun(cfg, states, actions, |actions|);
    var p, q := s.procs[i], s.procs[j];
    assert ActsOnItsOwn(cfg, s.w.convs, p) && ActsOnItsOwn(cfg, s.w.convs, q);
    var x, y := Normalize(p.role.msg.sender), Normalize(q.role.msg.sender);
    assert cfg.hash(x) == cfg.hash(y) ==> x == y;
    if x == y && p.context.value.brand == q.context.value.brand {
      assert HasKey(s.w.convs[q.conv.value], s.w.convs[p.conv.value].phoneHash, s.w.convs[p.conv.value].brand);
    }
  }
}
