/** Every process but the retention job is over after at most fourteen awaits, however they go and
    whatever runs in between. */
module Progress {
  import opened Counting
  import opened Records
  import opened Processes
  import opened Service
  import opened Soundness

  const LONGEST: nat := 14

  /** How many awaits a process has left at most. */
  function Remaining(pc: Pc): (n: nat)
    ensures n <= LONGEST
  {
    match pc
    case CheckingClaim => 14
    case Resolving => 13
    case ReadingConv => 13
    case Claiming => 12
    case Finding => 11
    case Creating => 10
    case Touching => 9
    case LoggingInbound => 8
    case Answering => 7
    case ReadingRegistry => 7
    case Sending => 6
    case MarkingSent => 5
    case Checking => 4
    case LoggingReply => 4
    case Escalating => 3
    case LoggingEcho => 3
    case Notifying => 2
    case ReadingForResolve => 2
    case Ended(_) => 0
    case _ => 1
  }

  lemma ReturningCountsDown(p: Proc, r: Response, env: Env)
    requires Shape(p) && !p.pc.Ended? && !p.role.PurgeJob?
    ensures Remaining(NextPc(p, r, env)) < Remaining(p.pc)
  {
  }

  lemma RaisingCountsDown(p: Proc)
    requires Shape(p) && !p.pc.Ended? && !p.role.PurgeJob?
    ensures Remaining(FailPc(p.role, p.pc)) < Remaining(p.pc)
  {
  }

  /** Every await brings a process closer to its end, whatever it answers and however it goes. */
  lemma AwaitsCountDown(p: Proc, op: Op, applied: bool, r: Response, fault: Fault, env: Env, now: real)
    requires Shape(p) && !p.pc.Ended? && !p.role.PurgeJob?
    ensures Remaining(After(p, op, applied, r, fault, env, now).pc) < Remaining(p.pc)
  {
    var q := if applied then Mark(p, op) else p;
    if fault == Returns {
      ReturningCountsDown(q, r, env);
    } else {
      RaisingCountsDown(q);
    }
  }

  function AwaitOf(pid: nat): Action -> bool {
    (a: Action) => a.Advance? && a.pid == pid
  }

  /** The awaits a process has made and those it has left. */
  ghost predicate Budgeted(s: Sys, done: seq<Action>, pid: nat) {
    if pid < |s.procs| then
      s.procs[pid].role.PurgeJob? || Count(done, AwaitOf(pid)) + Remaining(s.procs[pid].pc) <= LONGEST
    else
      Count(done, AwaitOf(pid)) == 0
  }

  lemma BudgetStep(cfg: Config, s: Sys, done: seq<Action>, a: Action, pid: nat)
    requires AllSound(s) && Enabled(cfg, s, a) && Budgeted(s, done, pid)
    ensures Budgeted(Step(cfg, s, a), done + [a], pid)
  {
    CountAppend(done, a, AwaitOf(pid));
    if a.Advance? {
      AdvanceMoves(cfg, s, a.pid, a.fault, a.env);
      var p, op := s.procs[a.pid], OpOf(cfg, s, a.pid, a.env);
      if a.pid == pid && !p.role.PurgeJob? {
        AwaitsCountDown(p, op, Applies(cfg, s, pid, a.fault, a.env), Respond(s.w, op, a.env), a.fault, a.env, s.clock);
      }
    }
  }

  ghost predicate BudgetedAt(states: seq<Sys>, actions: seq<Action>, pid: nat, k: nat) {
    k < |states| && k <= |actions| && AllSound(states[k]) && Budgeted(states[k], actions[..k], pid)
  }

  lemma BudgetContinues(cfg: Config, states: seq<Sys>, actions: seq<Action>, pid: nat, k: nat)
    requires IsRun(cfg, states, actions) && 0 < k <= |actions| && BudgetedAt(states, actions, pid, k - 1)
    ensures BudgetedAt(states, actions, pid, k)
  {
    assert Follows(cfg, states, actions, k - 1);
    SoundStep(cfg, states[k - 1], actions[k - 1]);
    BudgetStep(cfg, states[k - 1], actions[..k - 1], actions[k - 1], pid);
    assert actions[..k] == actions[..k - 1] + [actions[k - 1]];
  }

  lemma {:induction false} BudgetInRun(cfg: Config, states: seq<Sys>, actions: seq<Action>, pid: nat, k: nat)
    requires IsRun(cfg, states, actions) && k <= |actions|
    ensures BudgetedAt(states, actions, pid, k)
  {
    if k == 0 {
      assert AllSound(INITIAL);
    } else {
      BudgetInRun(cfg, states, actions, pid, k - 1);
      BudgetContinues(cfg, states, actions, pid, k);
    }
  }

  /** Progress: in every run a process other than the retention job makes at most fourteen awaits,
      one that has made fourteen is over, and one that is alive and not over can make its next. */
  lemma AwaitsAreBounded(cfg: Config, states: seq<Sys>, actions: seq<Action>, pid: nat, k: nat)
    requires IsRun(cfg, states, actions) && k <= |actions| && pid < |states[k].procs|
    requires !states[k].procs[pid].role.PurgeJob?
    ensures var p, n := states[k].procs[pid], Count(actions[..k], AwaitOf(pid));
            && n <= LONGEST
            && (n == LONGEST ==> p.pc.Ended?)
            && (Live(p) ==> forall fault, env :: Enabled(cfg, states[k], Advance(pid, fault, env)))
  {
    BudgetInRun(cfg, states, actions, pid, k);
  }
}
