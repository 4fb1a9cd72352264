/** The claim protocol shared by inbound messages and agent replies: who holds a claim, and
    how many sends one claim reference can be charged with. */
module ClaimProtocol {
  import opened Counting
  import opened Records
  import opened Processes
  import opened Service
  import opened Soundness

  function InsertionOf(ref: ClaimRef): Op -> bool { (op: Op) => op.InsertClaim? && op.ref == ref }
  function ReleaseOf(ref: ClaimRef): Op -> bool { (op: Op) => op.DeleteClaim? && op.ref == ref }
  function LateReleaseOf(ref: ClaimRef): Op -> bool { (op: Op) => op.DeleteClaim? && op.ref == ref && op.late }
  function ExpiryOf(ref: ClaimRef): Op -> bool { (op: Op) => op.ExpireClaim? && op.ref == ref }
  function SendFor(ref: ClaimRef): Op -> bool { (op: Op) => op.Send? && RefOfSender(op.sender) == ref }

  function Owner(ref: ClaimRef): Proc -> bool { (p: Proc) => Claims(p) && RefOf(p) == ref && p.owns }
  function SenderOf(ref: ClaimRef): Proc -> bool { (p: Proc) => Claims(p) && RefOf(p) == ref && p.sent }
  function SentAndKept(ref: ClaimRef): Proc -> bool {
    (p: Proc) => Claims(p) && RefOf(p) == ref && p.sent && p.owns
  }
  function SentAndReleased(ref: ClaimRef): Proc -> bool {
    (p: Proc) => Claims(p) && RefOf(p) == ref && p.sent && !p.owns
  }

  /** A live process between its successful claim and its release. */
  predicate Holds(p: Proc, ref: ClaimRef) {
    Live(p) && Claims(p) && p.owns && RefOf(p) == ref
  }

  /** The books of one claim reference. */
  ghost predicate Balanced(s: Sys, ref: ClaimRef) {
    && Count(s.w.oplog, SendFor(ref)) == Count(s.procs, SenderOf(ref))
    && Count(s.w.oplog, LateReleaseOf(ref)) == Count(s.procs, SentAndReleased(ref))
    && Count(s.w.oplog, InsertionOf(ref))
       == Count(s.w.oplog, ReleaseOf(ref)) + Count(s.w.oplog, ExpiryOf(ref)) + One(ref in s.w.claims)
    && Count(s.procs, Owner(ref)) == One(ref in s.w.claims) + Count(s.w.oplog, ExpiryOf(ref))
    && (ref in s.w.claims && s.w.claims[ref].sent ==> Count(s.procs, SenderOf(ref)) > 0)
  }

  ghost predicate Timely(s: Sys) {
    forall i :: 0 <= i < |s.procs| ==>
      InTime(s.procs[i], s.clock) && s.procs[i].started <= s.procs[i].at <= s.clock
  }

  /** A live holder's claim is in the collection and is no older than the holder. */
  ghost predicate Backed(s: Sys) {
    forall i :: 0 <= i < |s.procs| && Live(s.procs[i]) && Claims(s.procs[i]) && s.procs[i].owns ==>
      RefOf(s.procs[i]) in s.w.claims && s.w.claims[RefOf(s.procs[i])].createdAt >= s.procs[i].started
  }

  /** No two live processes hold the same claim. */
  ghost predicate Exclusive(s: Sys) {
    forall i, j, ref {:trigger Holds(s.procs[i], ref), Holds(s.procs[j], ref)} ::
      0 <= i < |s.procs| && 0 <= j < |s.procs| && Holds(s.procs[i], ref) && Holds(s.procs[j], ref) ==> i == j
  }

  ghost predicate ClaimInvariant(s: Sys) {
    AllSound(s) && Timely(s) && Backed(s) && Exclusive(s) && forall ref :: Balanced(s, ref)
  }

  lemma TimelyStep(cfg: Config, s: Sys, a: Action)
    requires AllSound(s) && Timely(s) && Enabled(cfg, s, a)
    ensures Timely(Step(cfg, s, a))
  {
    if a.Advance? {
      var p, op := s.procs[a.pid], OpOf(cfg, s, a.pid, a.env);
      var applied := Applies(cfg, s, a.pid, a.fault, a.env);
      AfterFlagged(p, op, applied, Respond(s.w, op, a.env), a.fault, a.env, s.clock);
    }
  }

  /** How one operation changes the claims collection. */
  lemma ClaimsAfter(w: World, op: Op, ref: ClaimRef)
    requires Effective(w, op)
    ensures op.InsertClaim? && op.ref == ref ==>
              ref !in w.claims && ref in Apply(w, op).claims && Apply(w, op).claims[ref] == Claim(op.at, false)
    ensures (op.DeleteClaim? || op.ExpireClaim?) && op.ref == ref ==>
              ref in w.claims && ref !in Apply(w, op).claims
    ensures op.MarkSent? && op.ref == ref ==>
              ref in w.claims && ref in Apply(w, op).claims
              && Apply(w, op).claims[ref] == w.claims[ref].(sent := true)
    ensures !((op.InsertClaim? || op.DeleteClaim? || op.ExpireClaim? || op.MarkSent?) && op.ref == ref) ==>
              (ref in w.claims <==> ref in Apply(w, op).claims)
              && (ref in w.claims ==> Apply(w, op).claims[ref] == w.claims[ref])
    ensures Apply(w, op).oplog == w.oplog + [op]
  {
  }

  lemma HoldersMove(s: Sys, t: Sys, pid: nat, op: Op, applied: bool)
    requires MakesMove(s, t, pid, op, applied) && Timely(s) && Backed(s) && Exclusive(s)
    ensures Backed(t) && Exclusive(t)
  {
    var p, q := s.procs[pid], t.procs[pid];
    forall i | 0 <= i < |t.procs| && Live(t.procs[i]) && Claims(t.procs[i]) && t.procs[i].owns
      ensures var ref := RefOf(t.procs[i]);
              ref in t.w.claims && t.w.claims[ref].createdAt >= t.procs[i].started
    {
      var ref := RefOf(t.procs[i]);
      if applied { ClaimsAfter(s.w, op, ref); }
      if i != pid {
        assert Holds(s.procs[i], ref);
        assert applied && op.DeleteClaim? && op.ref == ref ==> Holds(p, ref);
      }
    }
    forall i, j, ref | 0 <= i < |t.procs| && 0 <= j < |t.procs| && Holds(t.procs[i], ref) && Holds(t.procs[j], ref)
      ensures i == j
    {
      assert i != pid ==> Holds(s.procs[i], ref);
      assert j != pid ==> Holds(s.procs[j], ref);
      if (i == pid || j == pid) && !Holds(p, ref) {
        assert applied && op.InsertClaim? && op.ref == ref;
        assert ref !in s.w.claims;
      }
    }
  }

  lemma SendsMove(s: Sys, t: Sys, pid: nat, op: Op, applied: bool, ref: ClaimRef)
    requires MakesMove(s, t, pid, op, applied) && Backed(s)
    requires Count(s.w.oplog, SendFor(ref)) == Count(s.procs, SenderOf(ref))
    requires Count(s.w.oplog, LateReleaseOf(ref)) == Count(s.procs, SentAndReleased(ref))
    ensures Count(t.w.oplog, SendFor(ref)) == Count(t.procs, SenderOf(ref))
    ensures Count(t.w.oplog, LateReleaseOf(ref)) == Count(t.procs, SentAndReleased(ref))
  {
    var q := t.procs[pid];
    Tally(s.w.oplog, op, applied, SendFor(ref), s.procs, pid, q, SenderOf(ref));
    Tally(s.w.oplog, op, applied, LateReleaseOf(ref), s.procs, pid, q, SentAndReleased(ref));
    if applied { ClaimsAfter(s.w, op, ref); }
  }

  /** Insertions, releases and expiries account for the presence of a claim. */
  lemma LogBalances(w: World, op: Op, ref: ClaimRef)
    requires Effective(w, op) && !op.ExpireClaim?
    requires Count(w.oplog, InsertionOf(ref))
             == Count(w.oplog, ReleaseOf(ref)) + Count(w.oplog, ExpiryOf(ref)) + One(ref in w.claims)
    ensures var y := Apply(w, op);
            && Count(y.oplog, InsertionOf(ref))
               == Count(y.oplog, ReleaseOf(ref)) + Count(y.oplog, ExpiryOf(ref)) + One(ref in y.claims)
            && Count(y.oplog, ExpiryOf(ref)) == Count(w.oplog, ExpiryOf(ref))
  {
    ClaimsAfter(w, op, ref);
    CountAppend(w.oplog, op, InsertionOf(ref));
    CountAppend(w.oplog, op, ReleaseOf(ref));
    CountAppend(w.oplog, op, ExpiryOf(ref));
  }

  /** The mover starts or stops owning the claim exactly when the claim comes or goes. */
  lemma OwnershipMoves(s: Sys, t: Sys, pid: nat, op: Op, applied: bool, ref: ClaimRef)
    requires MakesMove(s, t, pid, op, applied)
    ensures One(Owner(ref)(t.procs[pid])) - One(Owner(ref)(s.procs[pid]))
            == One(ref in t.w.claims) - One(ref in s.w.claims)
  {
    if applied { ClaimsAfter(s.w, op, ref); }
  }

  lemma OwnersMove(s: Sys, t: Sys, pid: nat, op: Op, applied: bool, ref: ClaimRef)
    requires MakesMove(s, t, pid, op, applied) && Balanced(s, ref)
    ensures Count(t.w.oplog, InsertionOf(ref))
            == Count(t.w.oplog, ReleaseOf(ref)) + Count(t.w.oplog, ExpiryOf(ref)) + One(ref in t.w.claims)
    ensures Count(t.procs, Owner(ref)) == One(ref in t.w.claims) + Count(t.w.oplog, ExpiryOf(ref))
  {
    CountUpdate(s.procs, pid, t.procs[pid], Owner(ref));
    OwnershipMoves(s, t, pid, op, applied, ref);
    if applied { LogBalances(s.w, op, ref); }
  }

  lemma SentClaimsMove(s: Sys, t: Sys, pid: nat, op: Op, applied: bool, ref: ClaimRef)
    requires MakesMove(s, t, pid, op, applied) && Balanced(s, ref)
    ensures ref in t.w.claims && t.w.claims[ref].sent ==> Count(t.procs, SenderOf(ref)) > 0
  {
    CountUpdate(s.procs, pid, t.procs[pid], SenderOf(ref));
    if applied {
      ClaimsAfter(s.w, op, ref);
      if op.MarkSent? && op.ref == ref {
        assert SenderOf(ref)(s.procs[pid]);
        CountZero(s.procs, SenderOf(ref));
      }
    }
  }

  /** An expiring claim is a day old, so no live process can still hold it. */
  lemma HoldersStep(cfg: Config, s: Sys, a: Action)
    requires AllSound(s) && Timely(s) && Backed(s) && Exclusive(s) && Enabled(cfg, s, a)
    ensures Backed(Step(cfg, s, a)) && Exclusive(Step(cfg, s, a))
  {
    var t := Step(cfg, s, a);
    match a {
      case Advance(pid, fault, env) =>
        AdvanceMoves(cfg, s, pid, fault, env);
        HoldersMove(s, t, pid, OpOf(cfg, s, pid, env), Applies(cfg, s, pid, fault, env));
      case _ =>
        assert forall i, ref :: 0 <= i < |t.procs| && Holds(t.procs[i], ref) ==>
              i < |s.procs| && Holds(s.procs[i], ref);
    }
  }

  lemma BooksAppend(s: Sys, p: Proc, ref: ClaimRef)
    requires !p.owns && !p.sent
    ensures Count(s.procs + [p], SenderOf(ref)) == Count(s.procs, SenderOf(ref))
    ensures Count(s.procs + [p], SentAndReleased(ref)) == Count(s.procs, SentAndReleased(ref))
    ensures Count(s.procs + [p], Owner(ref)) == Count(s.procs, Owner(ref))
  {
    CountAppend(s.procs, p, SenderOf(ref));
    CountAppend(s.procs, p, SentAndReleased(ref));
    CountAppend(s.procs, p, Owner(ref));
  }

  lemma BooksCrash(s: Sys, pid: nat, ref: ClaimRef)
    requires pid < |s.procs| && Balanced(s, ref)
    ensures Balanced(s.(procs := s.procs[pid := s.procs[pid].(alive := false)]), ref)
  {
    var q := s.procs[pid].(alive := false);
    CountUpdate(s.procs, pid, q, SenderOf(ref));
    CountUpdate(s.procs, pid, q, SentAndReleased(ref));
    CountUpdate(s.procs, pid, q, Owner(ref));
  }

  lemma BooksExpire(s: Sys, expired: ClaimRef, ref: ClaimRef)
    requires expired in s.w.claims && Balanced(s, ref)
    ensures Balanced(s.(w := Apply(s.w, ExpireClaim(expired))), ref)
  {
    var op := ExpireClaim(expired);
    ClaimsAfter(s.w, op, ref);
    CountAppend(s.w.oplog, op, SendFor(ref));
    CountAppend(s.w.oplog, op, LateReleaseOf(ref));
    CountAppend(s.w.oplog, op, InsertionOf(ref));
    CountAppend(s.w.oplog, op, ReleaseOf(ref));
    CountAppend(s.w.oplog, op, ExpiryOf(ref));
  }

  lemma BooksMove(s: Sys, t: Sys, pid: nat, op: Op, applied: bool, ref: ClaimRef)
    requires MakesMove(s, t, pid, op, applied) && Backed(s) && Balanced(s, ref)
    ensures Balanced(t, ref)
  {
    SendsMove(s, t, pid, op, applied, ref);
    OwnersMove(s, t, pid, op, applied, ref);
    SentClaimsMove(s, t, pid, op, applied, ref);
  }

  lemma BooksStep(cfg: Config, s: Sys, a: Action, ref: ClaimRef)
    requires AllSound(s) && Backed(s) && Balanced(s, ref) && Enabled(cfg, s, a)
    ensures Balanced(Step(cfg, s, a), ref)
  {
    match a {
      case Start(job) => BooksAppend(s, Spawn(Attempt(job, s.jobs[job].msg), s.clock), ref);
      case Arrive(role) => BooksAppend(s, Spawn(role, s.clock), ref);
      case Advance(pid, fault, env) =>
        AdvanceMoves(cfg, s, pid, fault, env);
        BooksMove(s, Step(cfg, s, a), pid, OpOf(cfg, s, pid, env), Applies(cfg, s, pid, fault, env), ref);
      case Crash(pid, _) => BooksCrash(s, pid, ref);
      case Expire(other) => BooksExpire(s, other, ref);
      case _ =>
    }
  }

  lemma ClaimStep(cfg: Config, s: Sys, a: Action)
    requires ClaimInvariant(s) && Enabled(cfg, s, a)
    ensures ClaimInvariant(Step(cfg, s, a))
  {
    SoundStep(cfg, s, a);
    TimelyStep(cfg, s, a);
    HoldersStep(cfg, s, a);
    forall ref ensures Balanced(Step(cfg, s, a), ref) {
      BooksStep(cfg, s, a, ref);
    }
  }

  lemma {:induction false} ClaimsInRun(cfg: Config, states: seq<Sys>, actions: seq<Action>, k: nat)
    requires IsRun(cfg, states, actions) && k <= |actions|
    ensures ClaimInvariant(states[k])
  {
    if k == 0 {
      assert ClaimInvariant(INITIAL);
    } else {
      ClaimsInRun(cfg, states, actions, k - 1);
      assert Follows(cfg, states, actions, k - 1);
      ClaimStep(cfg, states[k - 1], actions[k - 1]);
    }
  }

  lemma ClaimsReachable(cfg: Config, s: Sys)
    requires Reachable(cfg, s)
    ensures ClaimInvariant(s)
  {
    var states, actions :| IsRun(cfg, states, actions) && states[|actions|] == s;
    ClaimsInRun(cfg, states, actions, |actions|);
  }

  /** Claim ownership: insertions that were neither released nor expired are zero or one and
      say whether the claim is present; at most one live process holds it, and a release that
      takes effect is the holder's own. */
  lemma ClaimOwnership(cfg: Config, s: Sys, ref: ClaimRef)
    requires Reachable(cfg, s)
    ensures Count(s.w.oplog, InsertionOf(ref)) - Count(s.w.oplog, ReleaseOf(ref)) - Count(s.w.oplog, ExpiryOf(ref))
            == (if ref in s.w.claims then 1 else 0)
    ensures forall i, j :: 0 <= i < |s.procs| && 0 <= j < |s.procs| && Holds(s.procs[i], ref) && Holds(s.procs[j], ref)
              ==> i == j && ref in s.w.claims
    ensures forall pid: nat, fault, env :: CanAdvance(s, pid) && Applies(cfg, s, pid, fault, env)
              && OpOf(cfg, s, pid, env).DeleteClaim? && OpOf(cfg, s, pid, env).ref == ref
              ==> Holds(s.procs[pid], ref)
  {
    ClaimsReachable(cfg, s);
    assert Balanced(s, ref);
    forall pid: nat, fault, env | CanAdvance(s, pid) && Applies(cfg, s, pid, fault, env)
      && OpOf(cfg, s, pid, env).DeleteClaim? && OpOf(cfg, s, pid, env).ref == ref
      ensures Holds(s.procs[pid], ref)
    {
      AdvanceMoves(cfg, s, pid, fault, env);
    }
  }

  /** At most once per claim: the sends charged to one message id or idempotency key exceed one
      only by releases made after a delivery and by expiries. */
  lemma SendsPerClaim(cfg: Config, s: Sys, ref: ClaimRef)
    requires Reachable(cfg, s)
    ensures Count(s.w.oplog, SendFor(ref))
            <= 1 + Count(s.w.oplog, LateReleaseOf(ref)) + Count(s.w.oplog, ExpiryOf(ref))
    ensures ref !in s.w.claims ==>
              Count(s.w.oplog, SendFor(ref)) <= Count(s.w.oplog, LateReleaseOf(ref)) + Count(s.w.oplog, ExpiryOf(ref))
    ensures ref in s.w.claims && s.w.claims[ref].sent ==> Count(s.w.oplog, SendFor(ref)) >= 1
  {
    ClaimsReachable(cfg, s);
    assert Balanced(s, ref);
    CountSplit(s.procs, SenderOf(ref), SentAndKept(ref), SentAndReleased(ref));
    CountMono(s.procs, SentAndKept(ref), Owner(ref));
  }

  function LiveOwner(ref: ClaimRef): Proc -> bool { (p: Proc) => Owner(ref)(p) && Live(p) }
  function CompletedOwner(ref: ClaimRef): Proc -> bool {
    (p: Proc) => Owner(ref)(p) && p.alive && p.pc == Ended(Completed)
  }
  function LeftOwner(ref: ClaimRef): Proc -> bool {
    (p: Proc) => Owner(ref)(p) && !Live(p) && !(p.alive && p.pc == Ended(Completed))
  }
  function PastOwner(ref: ClaimRef): Proc -> bool { (p: Proc) => Owner(ref)(p) && !Live(p) }

  /** Every claim that is present or has expired has its one owner: a process still running, one that
      completed, or one that ended otherwise, or died, and left it behind. */
  lemma ClaimsAreAccounted(cfg: Config, s: Sys, ref: ClaimRef)
    requires Reachable(cfg, s)
    ensures One(ref in s.w.claims) + Count(s.w.oplog, ExpiryOf(ref))
            == Count(s.procs, LiveOwner(ref)) + Count(s.procs, CompletedOwner(ref)) + Count(s.procs, LeftOwner(ref))
  {
    ClaimsReachable(cfg, s);
    assert Balanced(s, ref);
    CountSplit(s.procs, Owner(ref), LiveOwner(ref), PastOwner(ref));
    CountSplit(s.procs, PastOwner(ref), CompletedOwner(ref), LeftOwner(ref));
  }
}
