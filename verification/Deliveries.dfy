/** The queue's side: how often a delivery is attempted, and what becomes of it. */
module Deliveries {
  import opened Counting
  import opened Processes
  import opened Service
  import opened Soundness

  function AttemptOf(j: nat): Proc -> bool { (p: Proc) => p.role.Attempt? && p.role.job == j }

  /** The books of one delivery. */
  predicate JobBooks(j: Job) {
    && j.retries <= MAX_RETRIES
    && j.backoff + 1 == Pow2(j.retries)
    && j.attempts == j.retries + j.crashes + (if j.status.Queued? || j.status.Lost? then 0 else 1)
    && (j.status.Exhausted? ==> j.retries == MAX_RETRIES)
  }

  /** A live attempt is the one its delivery is running, and carries that delivery's message. */
  predicate AttemptLinked(s: Sys, i: nat) {
    i < |s.procs| && s.procs[i].role.Attempt? ==>
      && s.procs[i].role.job < |s.jobs| && s.jobs[s.procs[i].role.job].msg == s.procs[i].role.msg
      && (Live(s.procs[i]) ==> s.jobs[s.procs[i].role.job].status == Running(i))
  }

  predicate JobLinked(s: Sys, j: nat) {
    j < |s.jobs| && s.jobs[j].status.Running? ==>
      var i := s.jobs[j].status.pid;
      i < |s.procs| && Live(s.procs[i]) && s.procs[i].role.Attempt? && s.procs[i].role.job == j
  }

  ghost predicate Linked(s: Sys) {
    && (forall j :: 0 <= j < |s.jobs| ==> JobBooks(s.jobs[j]))
    && (forall i: nat :: AttemptLinked(s, i))
    && (forall j: nat :: JobLinked(s, j))
  }

  ghost predicate QueueInvariant(s: Sys) {
    && AllSound(s) && Linked(s)
    && (forall j: nat :: j < |s.jobs| ==> Count(s.procs, AttemptOf(j)) == s.jobs[j].attempts)
    && (forall j: nat :: j >= |s.jobs| ==> Count(s.procs, AttemptOf(j)) == 0)
  }

  lemma RetryBooks(j: Job, outcome: Outcome)
    requires JobBooks(j) && j.status.Running?
    ensures JobBooks(AfterAttempt(j, outcome)) && !AfterAttempt(j, outcome).status.Running?
  {
  }

  /** How a step changes the deliveries, seen from the process that moved. */
  lemma SettledJobs(s: Sys, pid: nat, q: Proc)
    requires Linked(s) && pid < |s.procs| && Live(s.procs[pid])
    requires q.role == s.procs[pid].role && q.alive
    ensures var t := s.(procs := s.procs[pid := q], jobs := Settle(s.jobs, q));
            Linked(t) && (forall j: nat :: j < |s.jobs| ==> t.jobs[j].attempts == s.jobs[j].attempts)
  {
    assert AttemptLinked(s, pid);
    var t := s.(procs := s.procs[pid := q], jobs := Settle(s.jobs, q));
    if q.role.Attempt? && q.pc.Ended? {
      RetryBooks(s.jobs[q.role.job], q.pc.outcome);
    }
    forall i: nat ensures AttemptLinked(t, i) { assert AttemptLinked(s, i); }
    forall j: nat ensures JobLinked(t, j) { assert JobLinked(s, j); }
  }

  lemma CrashedJobs(s: Sys, pid: nat, redelivered: bool)
    requires Linked(s) && pid < |s.procs| && Live(s.procs[pid])
    ensures var t := s.(procs := s.procs[pid := s.procs[pid].(alive := false)],
                        jobs := AfterCrash(s.jobs, s.procs[pid], redelivered));
            Linked(t) && (forall j: nat :: j < |s.jobs| ==> t.jobs[j].attempts == s.jobs[j].attempts)
  {
    assert AttemptLinked(s, pid);
    var t := s.(procs := s.procs[pid := s.procs[pid].(alive := false)],
                jobs := AfterCrash(s.jobs, s.procs[pid], redelivered));
    forall i: nat ensures AttemptLinked(t, i) { assert AttemptLinked(s, i); }
    forall j: nat ensures JobLinked(t, j) { assert JobLinked(s, j); }
  }

  lemma StartedJobs(s: Sys, job: nat)
    requires Linked(s) && job < |s.jobs| && s.jobs[job].status == Queued
    ensures var j := s.jobs[job];
            var t := s.(procs := s.procs + [Spawn(Attempt(job, j.msg), s.clock)],
                        jobs := s.jobs[job := j.(attempts := j.attempts + 1, status := Running(|s.procs|))]);
            Linked(t)
  {
    var j := s.jobs[job];
    var t := s.(procs := s.procs + [Spawn(Attempt(job, j.msg), s.clock)],
                jobs := s.jobs[job := j.(attempts := j.attempts + 1, status := Running(|s.procs|))]);
    forall i: nat ensures AttemptLinked(t, i) { assert AttemptLinked(s, i); }
    forall k: nat ensures JobLinked(t, k) { assert JobLinked(s, k); }
  }

  lemma AttemptCounts(cfg: Config, s: Sys, a: Action, j: nat)
    requires QueueInvariant(s) && Enabled(cfg, s, a)
    ensures Count(Step(cfg, s, a).procs, AttemptOf(j))
            == Count(s.procs, AttemptOf(j)) + (if a == Start(j) then 1 else 0)
  {
    match a {
      case Start(job) => CountAppend(s.procs, Spawn(Attempt(job, s.jobs[job].msg), s.clock), AttemptOf(j));
      case Arrive(role) => CountAppend(s.procs, Spawn(role, s.clock), AttemptOf(j));
      case Advance(pid, fault, env) =>
        AdvanceMoves(cfg, s, pid, fault, env);
        CountUpdate(s.procs, pid, ProcAfter(cfg, s, pid, fault, env), AttemptOf(j));
      case Crash(pid, _) => CountUpdate(s.procs, pid, s.procs[pid].(alive := false), AttemptOf(j));
      case _ =>
    }
  }

  /** The links look at processes and deliveries only; a new delivery waits in the queue. */
  lemma LinksExtend(t: Sys, u: Sys)
    requires Linked(u)
    requires u.procs <= t.procs && (|t.procs| == |u.procs| || !t.procs[|u.procs|].role.Attempt?)
    requires |t.procs| <= |u.procs| + 1
    requires u.jobs <= t.jobs && |t.jobs| <= |u.jobs| + 1
    requires |t.jobs| == |u.jobs| || (t.jobs[|u.jobs|].status.Queued? && JobBooks(t.jobs[|u.jobs|]))
    ensures Linked(t)
  {
    forall i: nat ensures AttemptLinked(t, i) { assert AttemptLinked(u, i); }
    forall j: nat ensures JobLinked(t, j) { assert JobLinked(u, j); }
  }

  lemma LinksStep(cfg: Config, s: Sys, a: Action)
    requires AllSound(s) && Linked(s) && Enabled(cfg, s, a)
    ensures Linked(Step(cfg, s, a))
    ensures |Step(cfg, s, a).jobs| == |s.jobs| + (if a.Enqueue? then 1 else 0)
    ensures forall j :: 0 <= j < |s.jobs| ==>
              Step(cfg, s, a).jobs[j].attempts == s.jobs[j].attempts + (if a == Start(j) then 1 else 0)
  {
    match a {
      case Start(job) => StartedJobs(s, job);
      case Advance(pid, fault, env) =>
        AdvanceMoves(cfg, s, pid, fault, env);
        SettledJobs(s, pid, ProcAfter(cfg, s, pid, fault, env));
        LinksExtend(Step(cfg, s, a), s.(procs := Step(cfg, s, a).procs, jobs := Step(cfg, s, a).jobs));
      case Crash(pid, redelivered) => CrashedJobs(s, pid, redelivered);
      case _ => LinksExtend(Step(cfg, s, a), s);
    }
  }

  lemma QueueStep(cfg: Config, s: Sys, a: Action)
    requires QueueInvariant(s) && Enabled(cfg, s, a)
    ensures QueueInvariant(Step(cfg, s, a))
  {
    SoundStep(cfg, s, a);
    LinksStep(cfg, s, a);
    var t := Step(cfg, s, a);
    forall j: nat ensures j < |t.jobs| ==> Count(t.procs, AttemptOf(j)) == t.jobs[j].attempts {
      AttemptCounts(cfg, s, a, j);
    }
    forall j: nat ensures j >= |t.jobs| ==> Count(t.procs, AttemptOf(j)) == 0 {
      AttemptCounts(cfg, s, a, j);
    }
  }

  lemma {:induction false} QueueInRun(cfg: Config, states: seq<Sys>, actions: seq<Action>, k: nat)
    requires IsRun(cfg, states, actions) && k <= |actions|
    ensures QueueInvariant(states[k])
  {
    if k == 0 {
      assert QueueInvariant(INITIAL);
    } else {
      QueueInRun(cfg, states, actions, k - 1);
      assert Follows(cfg, states, actions, k - 1);
      QueueStep(cfg, states[k - 1], actions[k - 1]);
    }
  }

  /** Bounded retry: a delivery is attempted at most four times plus once per lost worker, and its
      retries wait 2^n - 1 seconds in all, at most seven. */
  lemma AttemptsAreBounded(cfg: Config, s: Sys, j: nat)
    requires Reachable(cfg, s) && j < |s.jobs|
    ensures Count(s.procs, AttemptOf(j)) <= 4 + s.jobs[j].crashes
    ensures s.jobs[j].retries <= 3 && s.jobs[j].backoff == [0, 1, 3, 7][s.jobs[j].retries]
    ensures s.jobs[j].status == Exhausted ==> Count(s.procs, AttemptOf(j)) == 4 + s.jobs[j].crashes
  {
    var states, actions :| IsRun(cfg, states, actions) && states[|actions|] == s;
    QueueInRun(cfg, states, actions, |actions|);
    assert JobBooks(s.jobs[j]);
    assert Pow2(0) == 1 && Pow2(1) == 2 && Pow2(2) == 4 && Pow2(3) == 8;
  }
}
