/** What becomes of an inbound message id once every delivery of it is over. */
module Fate {
  import opened Counting
  import opened Records
  import opened Processes
  import opened Service
  import opened Soundness
  import opened ClaimProtocol
  import opened Deliveries
  import opened Completion

  function CompletedJob(id: string): Job -> bool { (j: Job) => j.msg.id == id && j.status == Settled(Completed) }
  function CompletedAttempt(id: string): Proc -> bool {
    (p: Proc) => p.role.Attempt? && p.role.msg.id == id && p.pc == Ended(Completed)
  }

  predicate IsAttempt(p: Proc, id: string) {
    p.role.Attempt? && p.role.msg.id == id
  }

  /** Over without having completed, whether it raised or its worker was lost, and its claim not released. */
  predicate LeftClaim(p: Proc) {
    p.role.Attempt? && p.owns && !Live(p) && p.pc != Ended(Completed)
  }

  function LeftBehind(id: string): Proc -> bool {
    (p: Proc) => IsAttempt(p, id) && LeftClaim(p)
  }

  /** The outcomes an attempt can have. */
  predicate Settles(outcome: Outcome) {
    outcome == Completed || outcome == DuplicateDelivery || outcome == DroppedUnknown
  }

  predicate KnownStatus(status: JobStatus) {
    status.Settled? ==> Settles(status.outcome)
  }

  /** A delivery that neither completed nor gave way to another one. */
  predicate Open(j: Job, id: string) {
    j.msg.id == id && j.status != Settled(Completed) && j.status != Settled(DuplicateDelivery)
  }

  ghost predicate HasOpen(s: Sys, id: string) {
    exists j :: 0 <= j < |s.jobs| && Open(s.jobs[j], id)
  }

  ghost predicate HasDelivery(s: Sys, id: string) {
    exists j :: 0 <= j < |s.jobs| && s.jobs[j].msg.id == id
  }

  /** The claim is not there, nor has it ever expired. */
  ghost predicate Unclaimed(w: World, id: string) {
    Inbound(id) !in w.claims && Count(w.oplog, ExpiryOf(Inbound(id))) == 0
  }

  ghost predicate FateInvariant(s: Sys, id: string) {
    && ClaimInvariant(s) && QueueInvariant(s)
    && (forall j :: 0 <= j < |s.jobs| ==> KnownStatus(s.jobs[j].status))
    && (Unclaimed(s.w, id) && HasDelivery(s, id) ==> HasOpen(s, id))
    && Corresponds(s.jobs, s.procs, id)
  }

  /** How an attempt can end, and what it says about its claim. */
  lemma EndsLocally(p: Proc, op: Op, applied: bool, r: Response, fault: Fault, env: Env, now: real)
    requires Sound(p) && Live(p) && p.role.Attempt? && Fits(p.pc, op)
    ensures var q := After(p, op, applied, r, fault, env, now);
            && (q.pc == Ended(Completed) ==> p.owns && !op.DeleteClaim?)
            && (q.pc == Ended(Raised) ==> p.pc == Resolving || p.pc == Claiming || p.pc == Releasing)
            && (q.pc == Ended(DuplicateDelivery) ==> p.pc == Claiming && fault == Returns && r.Duplicate?)
            && (q.pc == Ended(DroppedUnknown) ==>
                  p.pc == Resolving && fault == Returns && (!r.ContextIs? || r.context.None?))
            && (q.pc.Ended? ==> q.pc.outcome == Completed || q.pc.outcome == Raised
                                || q.pc.outcome == DuplicateDelivery || q.pc.outcome == DroppedUnknown)
  {
  }

  /** The delivery of a process that has just moved. */
  lemma StatusAfter(cfg: Config, s: Sys, pid: nat, fault: Fault, env: Env, j: nat)
    requires AllSound(s) && Linked(s) && CanAdvance(s, pid) && j < |s.jobs| && KnownStatus(s.jobs[j].status)
    ensures var q, after := ProcAfter(cfg, s, pid, fault, env), Settle(s.jobs, ProcAfter(cfg, s, pid, fault, env))[j];
            && KnownStatus(after.status)
            && (after != s.jobs[j] ==>
                  && q.role.Attempt? && q.role == s.procs[pid].role && q.role.job == j && q.pc.Ended?
                  && after == AfterAttempt(s.jobs[j], q.pc.outcome))
  {
    var p, op := s.procs[pid], OpOf(cfg, s, pid, env);
    var applied, r := Applies(cfg, s, pid, fault, env), Respond(s.w, op, env);
    AfterFlagged(p, op, applied, r, fault, env, s.clock);
    if p.role.Attempt? {
      EndsLocally(p, op, applied, r, fault, env, s.clock);
    }
  }

  lemma StatusesStep(cfg: Config, s: Sys, a: Action)
    requires AllSound(s) && Linked(s) && Enabled(cfg, s, a)
    requires forall j :: 0 <= j < |s.jobs| ==> KnownStatus(s.jobs[j].status)
    ensures forall j :: 0 <= j < |Step(cfg, s, a).jobs| ==> KnownStatus(Step(cfg, s, a).jobs[j].status)
  {
    var t := Step(cfg, s, a);
    if a.Advance? {
      forall j | 0 <= j < |t.jobs| ensures KnownStatus(t.jobs[j].status) {
        StatusAfter(cfg, s, a.pid, a.fault, a.env, j);
      }
    }
  }

  /** The delivery whose attempt has just released the claim is retried or exhausted. */
  lemma ReleasedOpen(cfg: Config, s: Sys, pid: nat, fault: Fault, env: Env, id: string)
    requires FateInvariant(s, id) && CanAdvance(s, pid)
    requires Inbound(id) in s.w.claims && Inbound(id) !in Step(cfg, s, Advance(pid, fault, env)).w.claims
    ensures HasOpen(Step(cfg, s, Advance(pid, fault, env)), id)
  {
    var t, op, p := Step(cfg, s, Advance(pid, fault, env)), OpOf(cfg, s, pid, env), s.procs[pid];
    RequestSigned(cfg, p, env, pid);
    ClaimsAfter(s.w, op, Inbound(id));
    assert AttemptLinked(s, pid);
    EndsLocally(p, op, Applies(cfg, s, pid, fault, env), Respond(s.w, op, env), fault, env, s.clock);
    assert Open(t.jobs[p.role.job], id);
  }

  /** Nothing settles a delivery while the claim is absent: a completed attempt would hold it, and
      a duplicate would have seen it. */
  lemma AbsentOpen(cfg: Config, s: Sys, pid: nat, fault: Fault, env: Env, id: string)
    requires FateInvariant(s, id) && CanAdvance(s, pid) && Inbound(id) !in s.w.claims && HasOpen(s, id)
    ensures HasOpen(Step(cfg, s, Advance(pid, fault, env)), id)
  {
    var t, op, p := Step(cfg, s, Advance(pid, fault, env)), OpOf(cfg, s, pid, env), s.procs[pid];
    var j :| 0 <= j < |s.jobs| && Open(s.jobs[j], id);
    StatusAfter(cfg, s, pid, fault, env, j);
    RequestSigned(cfg, p, env, pid);
    if t.jobs[j] != s.jobs[j] {
      assert AttemptLinked(s, pid);
      EndsLocally(p, op, Applies(cfg, s, pid, fault, env), Respond(s.w, op, env), fault, env, s.clock);
    }
    assert Open(t.jobs[j], id);
  }

  /** No other action settles a delivery. */
  lemma OthersKeepOpen(cfg: Config, s: Sys, a: Action, id: string)
    requires Enabled(cfg, s, a) && !a.Advance? && Linked(s) && HasOpen(s, id)
    ensures HasOpen(Step(cfg, s, a), id)
  {
    var j :| 0 <= j < |s.jobs| && Open(s.jobs[j], id);
    if a.Crash? { assert AttemptLinked(s, a.pid); }
    assert Open(Step(cfg, s, a).jobs[j], id);
  }

  lemma ExpiriesGrow(cfg: Config, s: Sys, a: Action, ref: ClaimRef)
    requires Enabled(cfg, s, a)
    ensures Count(Step(cfg, s, a).w.oplog, ExpiryOf(ref)) >= Count(s.w.oplog, ExpiryOf(ref)) + One(a == Expire(ref))
  {
    if a.Advance? {
      CountAppend(s.w.oplog, OpOf(cfg, s, a.pid, a.env), ExpiryOf(ref));
    } else if a.Expire? {
      CountAppend(s.w.oplog, ExpireClaim(a.ref), ExpiryOf(ref));
    }
  }

  lemma OthersKeepClaims(cfg: Config, s: Sys, a: Action, ref: ClaimRef)
    requires Enabled(cfg, s, a) && !a.Advance? && a != Expire(ref)
    ensures ref in Step(cfg, s, a).w.claims <==> ref in s.w.claims
  {
  }

  /** While the claim is absent and has not expired, some delivery of the id is open. */
  lemma OpenStep(cfg: Config, s: Sys, a: Action, id: string)
    requires FateInvariant(s, id) && Enabled(cfg, s, a) && Unclaimed(Step(cfg, s, a).w, id) && HasDelivery(s, id)
    ensures HasOpen(Step(cfg, s, a), id)
  {
    ExpiriesGrow(cfg, s, a, Inbound(id));
    if a.Advance? {
      if Inbound(id) in s.w.claims {
        ReleasedOpen(cfg, s, a.pid, a.fault, a.env, id);
      } else {
        AbsentOpen(cfg, s, a.pid, a.fault, a.env, id);
      }
    } else {
      OthersKeepClaims(cfg, s, a, Inbound(id));
      OthersKeepOpen(cfg, s, a, id);
    }
  }

  /** A delivery that has just been enqueued is itself open. */
  lemma FirstDelivery(cfg: Config, s: Sys, a: Action, id: string)
    requires Enabled(cfg, s, a) && !HasDelivery(s, id) && HasDelivery(Step(cfg, s, a), id)
    ensures HasOpen(Step(cfg, s, a), id)
  {
    var t := Step(cfg, s, a);
    JobsKeepMessages(cfg, s, a);
    var j :| 0 <= j < |t.jobs| && t.jobs[j].msg.id == id;
    assert j >= |s.jobs|;
    assert Open(t.jobs[j], id);
  }

  lemma JobsKeepMessages(cfg: Config, s: Sys, a: Action)
    requires Enabled(cfg, s, a)
    ensures var t := Step(cfg, s, a);
            && |t.jobs| == |s.jobs| + (if a.Enqueue? then 1 else 0)
            && (forall j :: 0 <= j < |s.jobs| ==> t.jobs[j].msg == s.jobs[j].msg)
            && (a.Enqueue? ==> t.jobs[|s.jobs|] == Job(a.msg, 0, 0, 0, 0, Queued))
  {
  }

  /** Completed attempts and completed deliveries correspond one to one. */
  predicate Corresponds(jobs: seq<Job>, procs: seq<Proc>, id: string) {
    Count(jobs, CompletedJob(id)) == Count(procs, CompletedAttempt(id))
  }

  /** A process that has just ended counts for its delivery as it counts for itself. */
  lemma CompletedAlike(s: Sys, pid: nat, q: Proc, id: string)
    requires Linked(s) && pid < |s.procs| && Live(s.procs[pid]) && q.role == s.procs[pid].role
    requires q.role.Attempt? && q.pc.Ended?
    ensures var job := q.role.job;
            && job < |s.jobs| && !CompletedJob(id)(s.jobs[job]) && !CompletedAttempt(id)(s.procs[pid])
            && CompletedJob(id)(AfterAttempt(s.jobs[job], q.pc.outcome)) == CompletedAttempt(id)(q)
  {
    assert AttemptLinked(s, pid);
  }

  lemma CompletedMove(s: Sys, pid: nat, q: Proc, id: string)
    requires Linked(s) && Corresponds(s.jobs, s.procs, id) && pid < |s.procs|
    requires Live(s.procs[pid]) && q.role == s.procs[pid].role
    ensures Corresponds(Settle(s.jobs, q), s.procs[pid := q], id)
  {
    CountUpdate(s.procs, pid, q, CompletedAttempt(id));
    if q.role.Attempt? && q.pc.Ended? {
      CompletedAlike(s, pid, q, id);
      CountUpdate(s.jobs, q.role.job, AfterAttempt(s.jobs[q.role.job], q.pc.outcome), CompletedJob(id));
    }
  }

  lemma CompletedCrash(s: Sys, pid: nat, redelivered: bool, id: string)
    requires Linked(s) && Corresponds(s.jobs, s.procs, id) && pid < |s.procs| && Live(s.procs[pid])
    ensures Corresponds(AfterCrash(s.jobs, s.procs[pid], redelivered), s.procs[pid := s.procs[pid].(alive := false)],
            id)
  {
    var p := s.procs[pid];
    assert AttemptLinked(s, pid);
    CountUpdate(s.procs, pid, p.(alive := false), CompletedAttempt(id));
    if p.role.Attempt? {
      var j := s.jobs[p.role.job];
      CountUpdate(s.jobs, p.role.job, j.(crashes := j.crashes + 1, status := if redelivered then Queued else Lost),
                  CompletedJob(id));
    }
  }

  lemma CompletedStart(s: Sys, job: nat, id: string)
    requires Corresponds(s.jobs, s.procs, id) && job < |s.jobs| && s.jobs[job].status == Queued
    ensures var j := s.jobs[job];
            Corresponds(s.jobs[job := j.(attempts := j.attempts + 1, status := Running(|s.procs|))],
                        s.procs + [Spawn(Attempt(job, j.msg), s.clock)], id)
  {
    var j := s.jobs[job];
    CountAppend(s.procs, Spawn(Attempt(job, j.msg), s.clock), CompletedAttempt(id));
    CountUpdate(s.jobs, job, j.(attempts := j.attempts + 1, status := Running(|s.procs|)), CompletedJob(id));
  }

  lemma CompletedAdvance(cfg: Config, s: Sys, pid: nat, fault: Fault, env: Env, id: string)
    requires AllSound(s) && Linked(s) && CanAdvance(s, pid) && Corresponds(s.jobs, s.procs, id)
    ensures var t := Step(cfg, s, Advance(pid, fault, env)); Corresponds(t.jobs, t.procs, id)
  {
    AdvanceMoves(cfg, s, pid, fault, env);
    CompletedMove(s, pid, ProcAfter(cfg, s, pid, fault, env), id);
  }

  lemma CompletedStep(cfg: Config, s: Sys, a: Action, id: string)
    requires AllSound(s) && Linked(s) && Enabled(cfg, s, a) && Corresponds(s.jobs, s.procs, id)
    ensures Corresponds(Step(cfg, s, a).jobs, Step(cfg, s, a).procs, id)
  {
    match a {
      case Enqueue(msg) => CountAppend(s.jobs, Job(msg, 0, 0, 0, 0, Queued), CompletedJob(id));
      case Start(job) => CompletedStart(s, job, id);
      case Arrive(role) => CountAppend(s.procs, Spawn(role, s.clock), CompletedAttempt(id));
      case Advance(pid, fault, env) => CompletedAdvance(cfg, s, pid, fault, env, id);
      case Crash(pid, redelivered) => CompletedCrash(s, pid, redelivered, id);
      case _ =>
    }
  }

  lemma FateStep(cfg: Config, s: Sys, a: Action, id: string)
    requires FateInvariant(s, id) && Enabled(cfg, s, a)
    ensures FateInvariant(Step(cfg, s, a), id)
  {
    ClaimStep(cfg, s, a);
    QueueStep(cfg, s, a);
    StatusesStep(cfg, s, a);
    CompletedStep(cfg, s, a, id);
    var t := Step(cfg, s, a);
    if Unclaimed(t.w, id) && HasDelivery(t, id) {
      if HasDelivery(s, id) {
        OpenStep(cfg, s, a, id);
      } else {
        FirstDelivery(cfg, s, a, id);
      }
    }
  }

  lemma FateInitially(id: string)
    ensures FateInvariant(INITIAL, id)
  {
  }

  lemma {:induction false} FateInRun(cfg: Config, states: seq<Sys>, actions: seq<Action>, id: string, k: nat)
    requires IsRun(cfg, states, actions) && k <= |actions|
    ensures FateInvariant(states[k], id)
  {
    if k == 0 {
      FateInitially(id);
    } else {
      FateInRun(cfg, states, actions, id, k - 1);
      assert Follows(cfg, states, actions, k - 1);
      FateStep(cfg, states[k - 1], actions[k - 1], id);
    }
  }

  /** Every delivery of the id is over. */
  predicate Quiescent(s: Sys, id: string) {
    forall j :: 0 <= j < |s.jobs| && s.jobs[j].msg.id == id ==> !s.jobs[j].status.Queued? && !s.jobs[j].status.Running?
  }

  /** A delivery that was given up: its attempts exhausted, its worker lost for good, or its number unknown. */
  predicate GivenUp(j: Job, id: string) {
    j.msg.id == id && (j.status.Exhausted? || j.status.Lost? || j.status == Settled(DroppedUnknown))
  }

  ghost predicate HasGivenUp(s: Sys, id: string) {
    exists j :: 0 <= j < |s.jobs| && GivenUp(s.jobs[j], id)
  }

  /** When every delivery is over, each claim that is present or has expired belongs to a completed
      attempt or was left behind. */
  lemma OwnersAreOver(s: Sys, id: string)
    requires FateInvariant(s, id) && Quiescent(s, id)
    ensures Count(s.procs, CompletedAttempt(id)) + Count(s.procs, LeftBehind(id))
            == One(Inbound(id) in s.w.claims) + Count(s.w.oplog, ExpiryOf(Inbound(id)))
  {
    assert Balanced(s, Inbound(id));
    forall i | 0 <= i < |s.procs|
      ensures One(Owner(Inbound(id))(s.procs[i]))
              == One(CompletedAttempt(id)(s.procs[i])) + One(LeftBehind(id)(s.procs[i]))
    {
      assert AttemptLinked(s, i);
    }
    CountSplit(s.procs, Owner(Inbound(id)), CompletedAttempt(id), LeftBehind(id));
  }

  /** The fate of a message, in every run and whatever fails in it. Once all its deliveries are over,
      each has completed, given way to another as a duplicate, or been given up; the claims that
      are present or have expired are as many as the deliveries that completed and the attempts
      that left their claim behind; and without any such claim some delivery was given up. */
  lemma FateOfAMessage(cfg: Config, states: seq<Sys>, actions: seq<Action>, id: string, k: nat)
    requires IsRun(cfg, states, actions) && k <= |actions| && Quiescent(states[k], id)
    ensures var s := states[k];
            && Count(s.jobs, CompletedJob(id)) + Count(s.procs, LeftBehind(id))
               == (if Inbound(id) in s.w.claims then 1 else 0) + Count(s.w.oplog, ExpiryOf(Inbound(id)))
            && (forall j :: 0 <= j < |s.jobs| && s.jobs[j].msg.id == id ==>
                  s.jobs[j].status == Settled(Completed) || s.jobs[j].status == Settled(DuplicateDelivery)
                  || GivenUp(s.jobs[j], id))
            && (Inbound(id) !in s.w.claims && Count(s.w.oplog, ExpiryOf(Inbound(id))) == 0 && HasDelivery(s, id) ==>
                  HasGivenUp(s, id))
  {
    FateInRun(cfg, states, actions, id, k);
    var s := states[k];
    OwnersAreOver(s, id);
    forall j | 0 <= j < |s.jobs| && s.jobs[j].msg.id == id
      ensures s.jobs[j].status == Settled(Completed) || s.jobs[j].status == Settled(DuplicateDelivery)
              || GivenUp(s.jobs[j], id)
    {
      assert KnownStatus(s.jobs[j].status);
    }
    if Unclaimed(s.w, id) && HasDelivery(s, id) {
      var j :| 0 <= j < |s.jobs| && Open(s.jobs[j], id);
      assert GivenUp(s.jobs[j], id);
    }
  }

  /** A completed attempt of the id, with all that it did. */
  ghost predicate ConcludedAt(states: seq<Sys>, id: string, k: nat, pid: nat) {
    && k < |states| && pid < |states[k].procs| && IsAttempt(states[k].procs[pid], id)
    && Concluded(states[k].w, states[k].procs[pid])
    && Seen(states, k, states[k].procs[pid].conv.value, states[k].procs[pid].snap.value)
  }

  predicate LeftAt(s: Sys, id: string, pid: nat) {
    pid < |s.procs| && LeftBehind(id)(s.procs[pid])
  }

  lemma SomeoneConcluded(cfg: Config, states: seq<Sys>, actions: seq<Action>, id: string, k: nat) returns (pid: nat)
    requires IsRun(cfg, states, actions) && k <= |actions|
    requires Count(states[k].procs, CompletedAttempt(id)) > 0
    ensures ConcludedAt(states, id, k, pid)
  {
    CountZero(states[k].procs, CompletedAttempt(id));
    pid :| pid < |states[k].procs| && CompletedAttempt(id)(states[k].procs[pid]);
    CompletedAttempts(cfg, states, actions, k, pid);
  }

  lemma SomeoneLeft(s: Sys, id: string) returns (pid: nat)
    requires Count(s.procs, LeftBehind(id)) > 0
    ensures LeftAt(s, id, pid)
  {
    CountZero(s.procs, LeftBehind(id));
    pid :| pid < |s.procs| && LeftBehind(id)(s.procs[pid]);
  }

  /** Every message is answered or handed over, unless a delivery of it was given up or an attempt
      left its claim behind: once its deliveries are over, one of the three is the case. */
  lemma AnsweredOrHandedOver(cfg: Config, states: seq<Sys>, actions: seq<Action>, id: string, k: nat)
    requires IsRun(cfg, states, actions) && k <= |actions| && Quiescent(states[k], id) && HasDelivery(states[k], id)
    ensures (exists pid: nat :: ConcludedAt(states, id, k, pid))
            || (exists pid: nat :: LeftAt(states[k], id, pid))
            || HasGivenUp(states[k], id)
  {
    FateInRun(cfg, states, actions, id, k);
    FateOfAMessage(cfg, states, actions, id, k);
    if Count(states[k].procs, CompletedAttempt(id)) > 0 {
      var pid := SomeoneConcluded(cfg, states, actions, id, k);
    } else if Count(states[k].procs, LeftBehind(id)) > 0 {
      var pid := SomeoneLeft(states[k], id);
    }
  }

  /** The step that strands an attempt: the insertion of its claim takes effect and raises, so that
      `claimed` stays false, or the release of its claim is refused. */
  predicate Strands(cfg: Config, s: Sys, a: Action, pid: nat) {
    && a.Advance? && a.pid == pid && CanAdvance(s, pid) && s.procs[pid].role.Attempt?
    && ((s.procs[pid].pc == Claiming && a.fault == AppliedButRaised && Applies(cfg, s, pid, a.fault, a.env))
        || (s.procs[pid].pc == Releasing && a.fault == Refused))
  }

  lemma ClaimingStrands(cfg: Config, s: Sys, pid: nat, fault: Fault, env: Env)
    requires AllSound(s) && CanAdvance(s, pid) && s.procs[pid].role.Attempt? && s.procs[pid].pc == Claiming
    ensures var q := ProcAfter(cfg, s, pid, fault, env);
            q.owns && q.pc == Ended(Raised) <==> Strands(cfg, s, Advance(pid, fault, env), pid)
  {
  }

  lemma ReleasingStrands(cfg: Config, s: Sys, pid: nat, fault: Fault, env: Env)
    requires AllSound(s) && Backed(s) && CanAdvance(s, pid) && s.procs[pid].role.Attempt?
             && s.procs[pid].pc == Releasing
    ensures var q := ProcAfter(cfg, s, pid, fault, env);
            q.owns && q.pc == Ended(Raised) <==> Strands(cfg, s, Advance(pid, fault, env), pid)
  {
  }

  lemma MoverStranded(cfg: Config, s: Sys, pid: nat, fault: Fault, env: Env)
    requires AllSound(s) && Backed(s) && CanAdvance(s, pid) && s.procs[pid].role.Attempt?
    ensures var q := ProcAfter(cfg, s, pid, fault, env);
            q.owns && q.pc == Ended(Raised) <==> Strands(cfg, s, Advance(pid, fault, env), pid)
  {
    var p, op := s.procs[pid], OpOf(cfg, s, pid, env);
    if p.pc == Claiming {
      ClaimingStrands(cfg, s, pid, fault, env);
    } else if p.pc == Releasing {
      ReleasingStrands(cfg, s, pid, fault, env);
    } else {
      var applied, r := Applies(cfg, s, pid, fault, env), Respond(s.w, op, env);
      AfterFlagged(p, op, applied, r, fault, env, s.clock);
      EndsLocally(p, op, applied, r, fault, env, s.clock);
    }
  }

  /** The step that leaves a claim behind: a stranding one, or the loss of the worker that holds it. */
  predicate Leaves(cfg: Config, s: Sys, a: Action, pid: nat) {
    || Strands(cfg, s, a, pid)
    || (a.Crash? && a.pid == pid && Enabled(cfg, s, a) && s.procs[pid].role.Attempt? && s.procs[pid].owns)
  }

  predicate HasLeft(s: Sys, pid: nat) {
    pid < |s.procs| && LeftClaim(s.procs[pid])
  }

  lemma MoverEnds(cfg: Config, s: Sys, pid: nat, fault: Fault, env: Env)
    requires AllSound(s) && CanAdvance(s, pid) && s.procs[pid].role.Attempt?
    ensures var q := ProcAfter(cfg, s, pid, fault, env);
            q.pc.Ended? && q.owns ==> q.pc == Ended(Completed) || q.pc == Ended(Raised)
  {
    var p, op := s.procs[pid], OpOf(cfg, s, pid, env);
    EndsLocally(p, op, Applies(cfg, s, pid, fault, env), Respond(s.w, op, env), fault, env, s.clock);
    AfterSound(cfg, s, pid, fault, env);
  }

  /** An attempt leaves its claim behind by such a step, and never takes it up again. */
  lemma LeavingStep(cfg: Config, s: Sys, a: Action, pid: nat)
    requires AllSound(s) && Backed(s) && Enabled(cfg, s, a)
    ensures HasLeft(Step(cfg, s, a), pid) <==> HasLeft(s, pid) || Leaves(cfg, s, a, pid)
  {
    if a.Advance? {
      AdvanceMoves(cfg, s, a.pid, a.fault, a.env);
      if a.pid == pid && s.procs[pid].role.Attempt? {
        MoverStranded(cfg, s, pid, a.fault, a.env);
        MoverEnds(cfg, s, pid, a.fault, a.env);
      }
    }
  }

  ghost predicate LeftBefore(cfg: Config, states: seq<Sys>, actions: seq<Action>, pid: nat, k: nat) {
    exists m: nat :: m < k && m < |actions| && m < |states| && Leaves(cfg, states[m], actions[m], pid)
  }

  /** In any run an attempt has left its claim behind exactly when the insertion of its claim took
      effect and raised, its release was refused, or its worker was lost while it held the claim. */
  lemma {:induction false} WhenLeftBehind(cfg: Config, states: seq<Sys>, actions: seq<Action>, pid: nat, k: nat)
    requires IsRun(cfg, states, actions) && k <= |actions|
    ensures HasLeft(states[k], pid) <==> LeftBefore(cfg, states, actions, pid, k)
  {
    if k == 0 {
    } else {
      WhenLeftBehind(cfg, states, actions, pid, k - 1);
      assert Follows(cfg, states, actions, k - 1);
      ClaimsInRun(cfg, states, actions, k - 1);
      LeavingStep(cfg, states[k - 1], actions[k - 1], pid);
      assert Leaves(cfg, states[k - 1], actions[k - 1], pid) ==> LeftBefore(cfg, states, actions, pid, k);
    }
  }
}
