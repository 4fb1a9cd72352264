/** The running service: any number of processes interleaved over the shared documents, the
    Celery queue that starts and retries inbound attempts, and one clock. */
module Service {
  import opened Counting
  import opened Records
  import opened Processes

  const MAX_RETRIES: nat := 3
  const TASK_TIME_LIMIT: real := 300.0

  datatype JobStatus = Queued | Running(pid: nat) | Settled(outcome: Outcome) | Exhausted | Lost

  /** One delivery of an inbound payload to the queue. */
  datatype Job = Job(msg: Message, retries: nat, crashes: nat, attempts: nat, backoff: nat, status: JobStatus)

  datatype Sys = Sys(w: World, procs: seq<Proc>, jobs: seq<Job>, clock: real)

  predicate IsEscalated(s: Sys, c: nat) {
    c < |s.w.convs| && s.w.convs[c].state == Escalated
  }

  const INITIAL := Sys(EMPTY_WORLD, [], [], 0.0)

  datatype Action =
    | Enqueue(msg: Message)
    | Start(job: nat)
    | Arrive(role: Role)
    | Tick(dt: real)
    | Advance(pid: nat, fault: Fault, env: Env)
    | Crash(pid: nat, redelivered: bool)
    | Expire(ref: ClaimRef)

  function LiveAttempts(): Proc -> bool {
    (p: Proc) => Live(p) && p.role.Attempt?
  }

  /** Inbound and echo tasks are killed at the task time limit; no agent request stays open
      for a whole day. */
  predicate InTime(p: Proc, now: real) {
    Live(p) ==>
      && (IsTask(p) ==> now <= p.started + TASK_TIME_LIMIT)
      && (p.role.AgentReply? ==> now < p.started + DAY)
  }

  predicate CanAdvance(s: Sys, pid: nat) {
    pid < |s.procs| && Live(s.procs[pid]) && Shape(s.procs[pid])
  }

  predicate Enabled(cfg: Config, s: Sys, a: Action) {
    match a
    case Enqueue(_) => true
    case Start(job) =>
      job < |s.jobs| && s.jobs[job].status == Queued && Count(s.procs, LiveAttempts()) < cfg.slots
    case Arrive(role) => !role.Attempt?
    case Tick(dt) => dt >= 0.0 && forall i :: 0 <= i < |s.procs| ==> InTime(s.procs[i], s.clock + dt)
    case Advance(pid, _, _) => CanAdvance(s, pid)
    case Crash(pid, _) => pid < |s.procs| && Live(s.procs[pid])
    case Expire(ref) => ref in s.w.claims && s.clock >= s.w.claims[ref].createdAt + DAY
  }

  function Pow2(n: nat): nat {
    if n == 0 then 1 else 2 * Pow2(n - 1)
  }

  /** `self.retry(countdown=2 ** retries, max_retries=3)` */
  function Retry(j: Job): Job {
    if j.retries < MAX_RETRIES then
      j.(retries := j.retries + 1, backoff := j.backoff + Pow2(j.retries), status := Queued)
    else
      j.(status := Exhausted)
  }

  function AfterAttempt(j: Job, outcome: Outcome): Job {
    if outcome == Raised then Retry(j) else j.(status := Settled(outcome))
  }

  /** The queue's view of a process that has just moved. */
  function Settle(jobs: seq<Job>, p: Proc): (r: seq<Job>)
    ensures |r| == |jobs| && forall j :: 0 <= j < |jobs| ==> r[j].msg == jobs[j].msg
  {
    if p.role.Attempt? && p.pc.Ended? && p.role.job < |jobs|
    then jobs[p.role.job := AfterAttempt(jobs[p.role.job], p.pc.outcome)]
    else jobs
  }

  /** A lost worker: the broker redelivers the payload, or does not. */
  function AfterCrash(jobs: seq<Job>, p: Proc, redelivered: bool): (r: seq<Job>)
    ensures |r| == |jobs| && forall j :: 0 <= j < |jobs| ==> r[j].msg == jobs[j].msg
  {
    if p.role.Attempt? && p.role.job < |jobs| then
      var j := jobs[p.role.job];
      jobs[p.role.job := j.(crashes := j.crashes + 1, status := if redelivered then Queued else Lost)]
    else jobs
  }

  function OpOf(cfg: Config, s: Sys, pid: nat, env: Env): Op
    requires CanAdvance(s, pid)
  {
    Request(cfg, s.procs[pid], env, pid)
  }

  /** Whether the awaited operation changes the documents. */
  predicate Applies(cfg: Config, s: Sys, pid: nat, fault: Fault, env: Env)
    requires CanAdvance(s, pid)
  {
    fault != Refused && Effective(s.w, OpOf(cfg, s, pid, env))
  }

  function ProcAfter(cfg: Config, s: Sys, pid: nat, fault: Fault, env: Env): Proc
    requires CanAdvance(s, pid)
  {
    var op := OpOf(cfg, s, pid, env);
    After(s.procs[pid], op, Applies(cfg, s, pid, fault, env), Respond(s.w, op, env), fault, env, s.clock)
  }

  function Step(cfg: Config, s: Sys, a: Action): Sys
    requires Enabled(cfg, s, a)
  {
    match a
    case Enqueue(msg) => s.(jobs := s.jobs + [Job(msg, 0, 0, 0, 0, Queued)])
    case Start(job) =>
      var j := s.jobs[job];
      s.(procs := s.procs + [Spawn(Attempt(job, j.msg), s.clock)],
         jobs := s.jobs[job := j.(attempts := j.attempts + 1, status := Running(|s.procs|))])
    case Arrive(role) => s.(procs := s.procs + [Spawn(role, s.clock)])
    case Tick(dt) => s.(clock := s.clock + dt)
    case Advance(pid, fault, env) =>
      var p := ProcAfter(cfg, s, pid, fault, env);
      Sys(if Applies(cfg, s, pid, fault, env) then Apply(s.w, OpOf(cfg, s, pid, env)) else s.w,
          s.procs[pid := p], Settle(s.jobs, p), s.clock)
    case Crash(pid, redelivered) =>
      var p := s.procs[pid];
      s.(procs := s.procs[pid := p.(alive := false)], jobs := AfterCrash(s.jobs, p, redelivered))
    case Expire(ref) => s.(w := Apply(s.w, ExpireClaim(ref)))
  }

  ghost predicate Follows(cfg: Config, states: seq<Sys>, actions: seq<Action>, k: nat) {
    && k < |actions| && k + 1 < |states|
    && Enabled(cfg, states[k], actions[k]) && states[k + 1] == Step(cfg, states[k], actions[k])
  }

  /** A run from the empty database: each state follows from the one before by its action. */
  ghost predicate IsRun(cfg: Config, states: seq<Sys>, actions: seq<Action>) {
    && |states| == |actions| + 1
    && states[0] == INITIAL
    && forall k: nat :: k < |actions| ==> Follows(cfg, states, actions, k)
  }

  /** A run goes on with any enabled action. */
  lemma RunExtends(cfg: Config, states: seq<Sys>, actions: seq<Action>, a: Action)
    requires IsRun(cfg, states, actions) && Enabled(cfg, states[|actions|], a)
    ensures IsRun(cfg, states + [Step(cfg, states[|actions|], a)], actions + [a])
  {
    var longer, more := states + [Step(cfg, states[|actions|], a)], actions + [a];
    forall k: nat | k < |more| ensures Follows(cfg, longer, more, k) {
      if k < |actions| { assert Follows(cfg, states, actions, k); }
    }
  }

  ghost predicate Reachable(cfg: Config, s: Sys) {
    exists states, actions :: IsRun(cfg, states, actions) && states[|actions|] == s
  }
}
