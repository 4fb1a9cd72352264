/** Where the protocol gives less than one might hope, shown by what can be reached. */
module Gaps {
  import opened Options
  import Phone
  import opened Counting
  import opened Records
  import opened Processes
  import opened Sequential
  import opened Service
  import opened Progress
  import opened Solo
  import opened Replies
  import opened Ledger
  import Tightness

  /** An agent's request on its way to its send, on a conversation that awaits a reply. */
  predicate Replying(x: Alone, c: nat, key: string) {
    && Shape(x.p) && x.p.alive && x.p.role.AgentReply? && x.p.role.target == c && x.p.role.key == key
    && x.p.conv == Some(c)
    && Awaits(x.w, c)
    && (x.p.pc == CheckingClaim || x.p.pc == ReadingConv || x.p.pc == Claiming || x.p.pc == ReadingRegistry
        || x.p.pc == Sending)
    && (x.p.pc == CheckingClaim || x.p.pc == ReadingConv || x.p.pc == Claiming ==> Reply(key) !in x.w.claims)
    && (x.p.pc == Claiming ==> x.p.snap.value.phoneEncrypted.Some?)
  }

  /** Documents stay, and only the request's own claim is added. */
  predicate OnlyItsClaim(x: Alone, y: Alone, key: string) {
    && y.w.convs == x.w.convs
    && forall ref :: ref in y.w.claims ==> ref in x.w.claims || ref == Reply(key)
  }

  function SendsTo(c: nat, key: string): Op -> bool {
    (op: Op) => op.Send? && op.conv == c && op.sender == Agent(key)
  }

  ghost predicate IgnoresClaims(f: Op -> bool) {
    forall op: Op :: op.InsertClaim? ==> !f(op)
  }

  /** The log of operations has grown by claims alone. */
  ghost predicate OnlyClaimsAdded(before: seq<Op>, after: seq<Op>) {
    forall f: Op -> bool :: IgnoresClaims(f) ==> Count(after, f) == Count(before, f)
  }

  lemma ReplyingMoves(cfg: Config, x: Alone, e: Setting, c: nat, key: string)
    requires Replying(x, c, key) && x.p.pc != Sending && Calm(e.net)
    ensures var y := Move(cfg, x, e);
            Replying(y, c, key) && Remaining(y.p.pc) < Remaining(x.p.pc) && OnlyItsClaim(x, y, key)
  {
    assert e.net(x.p.pc) == Returns;
  }

  lemma ReplyingClaims(cfg: Config, x: Alone, e: Setting, c: nat, key: string)
    requires Replying(x, c, key) && x.p.pc != Sending && Calm(e.net)
    ensures OnlyClaimsAdded(x.w.oplog, Move(cfg, x, e).w.oplog)
  {
    var op := Request(cfg, x.p, e.env, e.nonce);
    forall f: Op -> bool | IgnoresClaims(f) ensures Count(Move(cfg, x, e).w.oplog, f) == Count(x.w.oplog, f) {
      CountAppend(x.w.oplog, op, f);
    }
  }

  const ANY := Env(None, None, 0, false)
  const AGENT: string := "agent@uri.example"

  function Here(s: Sys, pid: nat): Setting {
    Setting(ANY, s.clock, pid, UP)
  }

  function ReplyRole(c: nat, key: string): Role {
    AgentReply(c, "On our way.", AGENT, "agent-1", key, "dashboard")
  }

  /** How one state of a run relates to a later one in which only one process has moved. */
  ghost predicate OneMoved(cfg: Config, s: Sys, t: Sys, pid: nat) {
    Reachable(cfg, t) && |t.procs| == |s.procs| && pid < |s.procs| && t.procs == s.procs[pid := t.procs[pid]]
  }

  lemma ReplyComesCloser(cfg: Config, s: Sys, pid: nat, c: nat, key: string) returns (t: Sys)
    requires Reachable(cfg, s) && pid < |s.procs| && Replying(View(s, pid), c, key) && s.procs[pid].pc != Sending
    ensures OneMoved(cfg, s, t, pid) && Replying(View(t, pid), c, key)
    ensures Remaining(t.procs[pid].pc) < Remaining(s.procs[pid].pc) && OnlyItsClaim(View(s, pid), View(t, pid), key)
    ensures OnlyClaimsAdded(s.w.oplog, t.w.oplog)
  {
    t := Proceed(cfg, s, pid, Here(s, pid));
    ReplyingMoves(cfg, View(s, pid), Here(s, pid), c, key);
    ReplyingClaims(cfg, View(s, pid), Here(s, pid), c, key);
  }

  lemma {:induction false} ReplyReachesSending(
    cfg: Config, s: Sys, pid: nat, c: nat, key: string) returns (t: Sys)
    requires Reachable(cfg, s) && pid < |s.procs| && Replying(View(s, pid), c, key)
    ensures OneMoved(cfg, s, t, pid) && Replying(View(t, pid), c, key) && t.procs[pid].pc == Sending
    ensures OnlyItsClaim(View(s, pid), View(t, pid), key)
    ensures OnlyClaimsAdded(s.w.oplog, t.w.oplog)
    decreases Remaining(s.procs[pid].pc)
  {
    if s.procs[pid].pc == Sending {
      t := s;
    } else {
      var next := ReplyComesCloser(cfg, s, pid, c, key);
      t := ReplyReachesSending(cfg, next, pid, c, key);
    }
  }

  /** A new request, brought as far as its send. */
  lemma ReplyArrives(cfg: Config, s: Sys, c: nat, key: string) returns (t: Sys)
    requires Reachable(cfg, s) && Awaits(s.w, c) && Reply(key) !in s.w.claims
    ensures Reachable(cfg, t) && |t.procs| == |s.procs| + 1 && t.procs[..|s.procs|] == s.procs
    ensures Replying(View(t, |s.procs|), c, key) && t.procs[|s.procs|].pc == Sending
    ensures t.w.convs == s.w.convs && forall ref :: ref in t.w.claims ==> ref in s.w.claims || ref == Reply(key)
    ensures OnlyClaimsAdded(s.w.oplog, t.w.oplog)
  {
    var a, pid := Arrive(ReplyRole(c, key)), |s.procs|;
    ReachableStep(cfg, s, a);
    var arrived := Step(cfg, s, a);
    t := ReplyReachesSending(cfg, arrived, pid, c, key);
    assert t.procs[..pid] == arrived.procs[..pid] == s.procs;
  }

  lemma ReplySendsNow(cfg: Config, s: Sys, pid: nat, c: nat, key: string, other: string) returns (t: Sys)
    requires Reachable(cfg, s) && pid < |s.procs| && Replying(View(s, pid), c, key) && s.procs[pid].pc == Sending
    requires other != key
    ensures OneMoved(cfg, s, t, pid) && t.w.convs == s.w.convs && t.w.claims == s.w.claims
    ensures Count(t.w.oplog, SendsTo(c, key)) == Count(s.w.oplog, SendsTo(c, key)) + 1
    ensures Count(t.w.oplog, SendsTo(c, other)) == Count(s.w.oplog, SendsTo(c, other))
    ensures Count(t.w.oplog, EscalationOf(c)) == Count(s.w.oplog, EscalationOf(c))
  {
    t := Proceed(cfg, s, pid, Here(s, pid));
    var send := Request(cfg, s.procs[pid], ANY, pid);
    CountAppend(s.w.oplog, send, SendsTo(c, key));
    CountAppend(s.w.oplog, send, SendsTo(c, other));
    CountAppend(s.w.oplog, send, EscalationOf(c));
  }

  /** One escalation, two answers: wherever a conversation awaits a reply, two agents with
      different unused keys can both deliver one before either resolves it. */
  lemma TwoAgentsCanBothReply(cfg: Config, s: Sys, c: nat, a: string, b: string) returns (t: Sys)
    requires Reachable(cfg, s) && Awaits(s.w, c) && a != b
    requires Reply(a) !in s.w.claims && Reply(b) !in s.w.claims
    ensures Reachable(cfg, t) && IsEscalated(t, c)
    ensures Count(t.w.oplog, SendsTo(c, a)) == Count(s.w.oplog, SendsTo(c, a)) + 1
    ensures Count(t.w.oplog, SendsTo(c, b)) == Count(s.w.oplog, SendsTo(c, b)) + 1
    ensures Count(t.w.oplog, EscalationOf(c)) == Count(s.w.oplog, EscalationOf(c))
  {
    var first := ReplyArrives(cfg, s, c, a);
    var second := ReplyArrives(cfg, first, c, b);
    var i, j := |s.procs|, |s.procs| + 1;
    assert second.procs[i] == second.procs[..j][i] == first.procs[i];
    var sent := ReplySendsNow(cfg, second, i, c, a, b);
    t := ReplySendsNow(cfg, sent, j, c, b, a);
    assert IgnoresClaims(SendsTo(c, a)) && IgnoresClaims(SendsTo(c, b)) && IgnoresClaims(EscalationOf(c));
  }

  predicate EscalatedAt(w: World, c: nat) {
    c < |w.convs| && w.convs[c].state == Escalated
  }

  /** An out-of-band resolve on its way to its write. */
  predicate Resolver(x: Alone, c: nat, pc: Pc) {
    && x.p.pc == pc && Shape(x.p) && x.p.alive && x.p.role == ResolveOnly(c, AGENT) && x.p.conv == Some(c)
  }

  lemma ResolverReads(cfg: Config, x: Alone, e: Setting, c: nat)
    requires (Resolver(x, c, Checking) || Resolver(x, c, ReadingForResolve)) && EscalatedAt(x.w, c) && Calm(e.net)
    ensures var y := Move(cfg, x, e);
            Resolver(y, c, if x.p.pc == Checking then ReadingForResolve else WritingResolve) && y.w == x.w
  {
  }

  lemma ResolverWrites(cfg: Config, x: Alone, e: Setting, c: nat)
    requires Resolver(x, c, WritingResolve) && EscalatedAt(x.w, c) && Calm(e.net)
    ensures var y := Move(cfg, x, e);
            && !EscalatedAt(y.w, c) && |y.w.convs| == |x.w.convs| && y.w.claims == x.w.claims
            && y.p.pc == Ended(Completed) && Tightness.SameCustomer(x.w.convs[c], y.w.convs[c])
            && Count(y.w.oplog, EscalationOf(c)) == Count(x.w.oplog, EscalationOf(c))
  {
    CountAppend(x.w.oplog, Request(cfg, x.p, e.env, e.nonce), EscalationOf(c));
  }

  /** A resolve that has read the escalation and not yet written. */
  lemma ResolverArrives(cfg: Config, s: Sys, c: nat) returns (t: Sys)
    requires Reachable(cfg, s) && IsEscalated(s, c)
    ensures Reachable(cfg, t) && t.w == s.w && t.clock == s.clock
    ensures |t.procs| == |s.procs| + 1 && t.procs[..|s.procs|] == s.procs
    ensures Resolver(View(t, |s.procs|), c, WritingResolve)
  {
    var a, pid := Arrive(ResolveOnly(c, AGENT)), |s.procs|;
    ReachableStep(cfg, s, a);
    var arrived := Step(cfg, s, a);
    var checked := Proceed(cfg, arrived, pid, Here(arrived, pid));
    ResolverReads(cfg, View(arrived, pid), Here(arrived, pid), c);
    t := Proceed(cfg, checked, pid, Here(checked, pid));
    ResolverReads(cfg, View(checked, pid), Here(checked, pid), c);
    assert t.procs[..pid] == arrived.procs[..pid] == s.procs;
  }

  /** An attempt about to escalate. */
  predicate AboutToEscalate(p: Proc, c: nat) {
    Live(p) && Shape(p) && p.role.Attempt? && p.pc == Escalating && p.conv == Some(c)
  }

  lemma Escalates(cfg: Config, x: Alone, e: Setting, c: nat)
    requires AboutToEscalate(x.p, c) && c < |x.w.convs| && Calm(e.net)
    ensures var y := Move(cfg, x, e);
            && EscalatedAt(y.w, c)
            && Count(y.w.oplog, EscalationOf(c)) == Count(x.w.oplog, EscalationOf(c)) + 1
  {
    CountAppend(x.w.oplog, Request(cfg, x.p, e.env, e.nonce), EscalationOf(c));
  }

  lemma WritesResolve(cfg: Config, s: Sys, r: nat, c: nat) returns (t: Sys)
    requires Reachable(cfg, s) && r < |s.procs| && Resolver(View(s, r), c, WritingResolve) && IsEscalated(s, c)
    ensures OneMoved(cfg, s, t, r) && |t.w.convs| == |s.w.convs| && !IsEscalated(t, c)
    ensures t.clock == s.clock && t.w.claims == s.w.claims && t.procs[r].pc == Ended(Completed)
    ensures Tightness.SameCustomer(s.w.convs[c], t.w.convs[c])
    ensures Count(t.w.oplog, EscalationOf(c)) == Count(s.w.oplog, EscalationOf(c))
    ensures Enabled(cfg, s, Advance(r, Returns, ANY)) && t == Step(cfg, s, Advance(r, Returns, ANY))
  {
    MoveIsAdvance(cfg, s, r, Here(s, r));
    ReachableStep(cfg, s, Advance(r, Returns, ANY));
    t := Step(cfg, s, Advance(r, Returns, ANY));
    ResolverWrites(cfg, View(s, r), Here(s, r), c);
  }

  lemma WritesEscalation(cfg: Config, s: Sys, q: nat, c: nat) returns (t: Sys)
    requires Reachable(cfg, s) && q < |s.procs| && AboutToEscalate(s.procs[q], c) && c < |s.w.convs|
    ensures OneMoved(cfg, s, t, q) && IsEscalated(t, c)
    ensures Count(t.w.oplog, EscalationOf(c)) == Count(s.w.oplog, EscalationOf(c)) + 1
  {
    t := Proceed(cfg, s, q, Here(s, q));
    Escalates(cfg, View(s, q), Here(s, q), c);
  }

  /** A resolve that read one escalation (in state `read`) undoes a later one (in state `newer`)
      that nobody has looked at, because it writes without reading again. */
  lemma StaleResolveUndoes(cfg: Config, s: Sys, c: nat, q: nat) returns (read: Sys, newer: Sys, r: nat)
    requires Reachable(cfg, s) && IsEscalated(s, c) && q < |s.procs| && AboutToEscalate(s.procs[q], c)
    ensures Reachable(cfg, read) && Reachable(cfg, newer)
    ensures r < |read.procs| && r < |newer.procs| && newer.procs[r] == read.procs[r]
    ensures read.procs[r].pc == WritingResolve
    ensures IsEscalated(newer, c)
    ensures Count(newer.w.oplog, EscalationOf(c)) == Count(read.w.oplog, EscalationOf(c)) + 1
    ensures var a := Advance(r, Returns, ANY);
            Enabled(cfg, newer, a) && c < |Step(cfg, newer, a).w.convs| && !IsEscalated(Step(cfg, newer, a), c)
  {
    r := |s.procs|;
    read := ResolverArrives(cfg, s, c);
    assert read.procs[q] == read.procs[..r][q] == s.procs[q];
    var other := ResolverArrives(cfg, read, c);
    assert other.procs[q] == other.procs[..r + 1][q] == read.procs[q];
    assert other.procs[r] == other.procs[..r + 1][r] == read.procs[r];
    var resolved := WritesResolve(cfg, other, r + 1, c);
    newer := WritesEscalation(cfg, resolved, q, c);
    var undone := WritesResolve(cfg, newer, r, c);
  }

  /** One attempt over, its conversation escalated. */
  ghost predicate EscalatedOnce(cfg: Config, s: Sys) {
    && Reachable(cfg, s) && s.clock == 0.0 && IsEscalated(s, 0) && |s.w.convs| == 1
    && HasKey(s.w.convs[0], cfg.hash(Phone.Normalize(Tightness.CUSTOMER)), Tightness.BRAND)
    && s.w.convs[0].phoneEncrypted.Some? && s.w.convs[0].lastMessageAt == 0.0
    && Inbound(Tightness.Id(1)) !in s.w.claims
    && |s.procs| == 1 && s.procs[0].pc == Ended(Completed) && s.procs[0].role.Attempt?
  }

  lemma EscalatesOnce(cfg: Config) returns (s: Sys)
    requires cfg.slots >= 1
    ensures EscalatedOnce(cfg, s)
  {
    var lined := Tightness.LineUp(cfg, 1);
    assert Tightness.Waiting(cfg, View(lined, 0), 0, Sending);
    var escalated := Tightness.ReachesEscalated(cfg, lined, 0);
    s := Tightness.ReachesEnd(cfg, escalated, 0);
  }

  /** Some conversation does come to await a reply, before any agent has made a request. */
  lemma ComesToAwait(cfg: Config) returns (s: Sys)
    requires cfg.slots >= 1
    ensures Reachable(cfg, s) && Awaits(s.w, 0)
    ensures forall i :: 0 <= i < |s.procs| ==> !s.procs[i].role.AgentReply?
  {
    s := EscalatesOnce(cfg);
    assert s.procs == [s.procs[0]];
  }

  /** A resolve has read that escalation, which another resolve has ended since. */
  lemma FirstEscalationEnds(cfg: Config, s: Sys) returns (read: Sys, ended: Sys)
    requires EscalatedOnce(cfg, s)
    ensures Reachable(cfg, read) && |read.procs| == 2 && Resolver(View(read, 1), 0, WritingResolve)
    ensures Reachable(cfg, ended) && ended.clock == 0.0 && |ended.procs| == 3 && ended.procs[1] == read.procs[1]
    ensures Count(ended.w.oplog, EscalationOf(0)) == Count(read.w.oplog, EscalationOf(0))
    ensures Tightness.OneOpen(cfg, ended.w) && |ended.w.convs| == 1
    ensures Inbound(Tightness.Id(1)) !in ended.w.claims
    ensures ended.procs[0].pc == Ended(Completed) && ended.procs[2].pc == Ended(Completed)
  {
    read := ResolverArrives(cfg, s, 0);
    var other := ResolverArrives(cfg, read, 0);
    assert read.procs[0] == read.procs[..1][0];
    assert other.procs[1] == other.procs[..2][1] && other.procs[0] == other.procs[..2][0];
    ended := WritesResolve(cfg, other, 2, 0);
  }

  /** A new message escalates the conversation, and the resolve that read the first escalation is
      still about to write. */
  lemma EscalatesAgain(cfg: Config, s: Sys) returns (t: Sys)
    requires cfg.slots >= 1 && Reachable(cfg, s) && s.clock == 0.0 && Tightness.OneOpen(cfg, s.w)
    requires Inbound(Tightness.Id(1)) !in s.w.claims && |s.procs| == 3
    requires s.procs[0].pc == Ended(Completed) && s.procs[1].role.ResolveOnly? && s.procs[2].pc == Ended(Completed)
    ensures Reachable(cfg, t) && |t.procs| == 4 && t.procs[1] == s.procs[1] && IsEscalated(t, 0)
    ensures Count(t.w.oplog, EscalationOf(0)) == Count(s.w.oplog, EscalationOf(0)) + 1
  {
    var again := Tightness.AnotherComes(cfg, s, 1);
    assert again.procs[1] == again.procs[..3][1];
    t := WritesEscalation(cfg, again, 3, 0);
  }

  /** With a single worker slot that does happen. */
  lemma StaleResolveHappens(cfg: Config) returns (read: Sys, newer: Sys, r: nat)
    requires cfg.slots >= 1
    ensures Reachable(cfg, read) && Reachable(cfg, newer)
    ensures r < |read.procs| && r < |newer.procs| && newer.procs[r] == read.procs[r]
    ensures read.procs[r].pc == WritingResolve && IsEscalated(newer, 0)
    ensures Count(newer.w.oplog, EscalationOf(0)) == Count(read.w.oplog, EscalationOf(0)) + 1
    ensures var a := Advance(r, Returns, ANY); Enabled(cfg, newer, a) && !IsEscalated(Step(cfg, newer, a), 0)
  {
    r := 1;
    var once := EscalatesOnce(cfg);
    var ended;
    read, ended := FirstEscalationEnds(cfg, once);
    newer := EscalatesAgain(cfg, ended);
    var undone := WritesResolve(cfg, newer, r, 0);
  }

  /** What is there of a message whose claim was left behind at once: that claim, and nothing else. */
  predicate Lost(s: Sys, id: string) {
    && Inbound(id) in s.w.claims && s.w.convs == [] && s.w.rows == []
    && |s.jobs| == 1 && s.jobs[0].msg.id == id
  }

  lemma AttemptStarts(cfg: Config, s: Sys) returns (t: Sys)
    requires cfg.slots >= 1 && Reachable(cfg, s) && |s.jobs| == 1 && s.jobs[0].status == Queued
    requires forall i :: 0 <= i < |s.procs| ==> !LiveAttempts()(s.procs[i])
    ensures Reachable(cfg, t) && t.w == s.w && t.procs == s.procs + [Spawn(Attempt(0, s.jobs[0].msg), s.clock)]
    ensures t.jobs == [s.jobs[0].(attempts := s.jobs[0].attempts + 1, status := Running(|s.procs|))]
  {
    CountZero(s.procs, LiveAttempts());
    ReachableStep(cfg, s, Start(0));
    t := Step(cfg, s, Start(0));
  }

  /** The only delivery's next attempt is taken up and learns whose number it is. */
  lemma AttemptResolves(cfg: Config, s: Sys) returns (t: Sys)
    requires cfg.slots >= 1 && Reachable(cfg, s) && |s.jobs| == 1 && s.jobs[0].status == Queued
    requires forall i :: 0 <= i < |s.procs| ==> !LiveAttempts()(s.procs[i])
    ensures Reachable(cfg, t) && t.w == s.w
    ensures t.jobs == [s.jobs[0].(attempts := s.jobs[0].attempts + 1, status := Running(|s.procs|))]
    ensures |t.procs| == |s.procs| + 1 && t.procs[..|s.procs|] == s.procs
    ensures var p := t.procs[|s.procs|];
            p.pc == Claiming && p.alive && Shape(p) && p.role == Attempt(0, s.jobs[0].msg)
  {
    var started := AttemptStarts(cfg, s);
    ReachableStep(cfg, started, Advance(|s.procs|, Returns, Tightness.UNMATCHED));
    t := Step(cfg, started, Advance(|s.procs|, Returns, Tightness.UNMATCHED));
  }

  lemma MeetsTheClaim(cfg: Config, s: Sys, pid: nat)
    requires pid < |s.procs| && Live(s.procs[pid]) && Shape(s.procs[pid]) && s.procs[pid].pc == Claiming
    requires s.procs[pid].role.Attempt? && Inbound(s.procs[pid].role.msg.id) in s.w.claims
    ensures var a := Advance(pid, Returns, ANY);
            && Enabled(cfg, s, a) && Step(cfg, s, a).w == s.w
            && Step(cfg, s, a).jobs == Settle(s.jobs, s.procs[pid].(pc := Ended(DuplicateDelivery)))
  {
    assert OpOf(cfg, s, pid, ANY) == InsertClaim(RefOf(s.procs[pid]), s.procs[pid].at);
  }

  /** The retry of a message whose claim was left behind meets that claim. */
  lemma RetryIsDuplicate(cfg: Config, s: Sys) returns (t: Sys)
    requires cfg.slots >= 1 && Reachable(cfg, s) && |s.jobs| == 1 && s.jobs[0].status == Queued
    requires Lost(s, s.jobs[0].msg.id) && forall i :: 0 <= i < |s.procs| ==> !LiveAttempts()(s.procs[i])
    ensures Reachable(cfg, t) && Lost(t, s.jobs[0].msg.id)
    ensures t.jobs[0].msg == s.jobs[0].msg && t.jobs[0].status == Settled(DuplicateDelivery)
    ensures t.jobs[0].retries == s.jobs[0].retries && t.jobs[0].crashes == s.jobs[0].crashes
  {
    var claiming := AttemptResolves(cfg, s);
    var a := Advance(|s.procs|, Returns, ANY);
    MeetsTheClaim(cfg, claiming, |s.procs|);
    ReachableStep(cfg, claiming, a);
    t := Step(cfg, claiming, a);
  }

  /** The first attempt of the first message, about to claim it. */
  lemma FirstAttempt(cfg: Config, msg: Message) returns (s: Sys)
    requires cfg.slots >= 1
    ensures Reachable(cfg, s) && s.w == EMPTY_WORLD && s.jobs == [Job(msg, 0, 0, 1, 0, Running(0))]
    ensures |s.procs| == 1 && Live(s.procs[0]) && Shape(s.procs[0])
    ensures s.procs[0].pc == Claiming && s.procs[0].role == Attempt(0, msg)
  {
    assert IsRun(cfg, [INITIAL], []);
    ReachableStep(cfg, INITIAL, Enqueue(msg));
    s := AttemptResolves(cfg, Step(cfg, INITIAL, Enqueue(msg)));
  }

  lemma ClaimRaises(cfg: Config, msg: Message) returns (s: Sys)
    requires cfg.slots >= 1
    ensures Reachable(cfg, s) && |s.jobs| == 1 && s.jobs[0].status == Queued && s.jobs[0].msg == msg
    ensures Lost(s, msg.id) && forall i :: 0 <= i < |s.procs| ==> !LiveAttempts()(s.procs[i])
    ensures s.jobs[0].crashes == 0
  {
    var claiming := FirstAttempt(cfg, msg);
    ReachableStep(cfg, claiming, Advance(0, AppliedButRaised, ANY));
    s := Step(cfg, claiming, Advance(0, AppliedButRaised, ANY));
  }

  /** A message can be lost with no worker lost and every release succeeding: the insertion of its
      claim takes effect and raises, nothing releases it because `claimed` is still false, and
      the retry returns as a duplicate. */
  lemma MessageIsLost(cfg: Config, msg: Message) returns (s: Sys)
    requires cfg.slots >= 1
    ensures Reachable(cfg, s) && Lost(s, msg.id)
    ensures s.jobs[0].msg == msg && s.jobs[0].status == Settled(DuplicateDelivery) && s.jobs[0].crashes == 0
  {
    var raised := ClaimRaises(cfg, msg);
    s := RetryIsDuplicate(cfg, raised);
  }

  lemma WorkerDies(cfg: Config, msg: Message) returns (s: Sys)
    requires cfg.slots >= 1
    ensures Reachable(cfg, s) && |s.jobs| == 1 && s.jobs[0].status == Queued && s.jobs[0].msg == msg
    ensures Lost(s, msg.id) && forall i :: 0 <= i < |s.procs| ==> !LiveAttempts()(s.procs[i])
    ensures s.jobs[0].crashes == 1 && s.jobs[0].retries == 0
  {
    var claiming := FirstAttempt(cfg, msg);
    ReachableStep(cfg, claiming, Advance(0, Returns, ANY));
    var claimed := Step(cfg, claiming, Advance(0, Returns, ANY));
    ReachableStep(cfg, claimed, Crash(0, true));
    s := Step(cfg, claimed, Crash(0, true));
  }

  /** And with nothing raising at all: the worker is lost once its claim is inserted, the broker
      redelivers the payload, and the new attempt returns as a duplicate. */
  lemma WorkerIsLost(cfg: Config, msg: Message) returns (s: Sys)
    requires cfg.slots >= 1
    ensures Reachable(cfg, s) && Lost(s, msg.id)
    ensures s.jobs[0].msg == msg && s.jobs[0].status == Settled(DuplicateDelivery)
    ensures s.jobs[0].crashes == 1 && s.jobs[0].retries == 0
  {
    var dead := WorkerDies(cfg, msg);
    s := RetryIsDuplicate(cfg, dead);
  }

  /** Everything returns but the update that marks the claim as sent. */
  const UNMARKED: Net := (pc: Pc) => if pc == MarkingSent then Refused else Returns

  lemma ReplyHappens(cfg: Config, s: Sys, role: Role, net: Net) returns (t: Sys)
    requires Reachable(cfg, s) && role.AgentReply?
    ensures Reachable(cfg, t) && t.clock == s.clock && t.w == ReplyTo(cfg, s.w, role, None, s.clock, net).w
    ensures |t.procs| == |s.procs| + 1 && t.procs[..|s.procs|] == s.procs && t.procs[|s.procs|].pc.Ended?
  {
    t := CallHappens(cfg, s, role, Setting(ANY, s.clock, |s.procs|, net));
  }

  lemma UnmarkedIsReleased(cfg: Config, w: World, role: Role, now: real)
    requires role.AgentReply? && Awaits(w, role.target) && Reply(role.key) !in w.claims
    ensures ReplyTo(cfg, w, role, None, now, UNMARKED).outcome == Raised
    ensures Delivers(w, role, UNMARKED) && Delivers(w, role, UP)
  {
    assert UNMARKED(MarkingSent) == Refused && UNMARKED(Releasing) == Returns;
    EnteredResult(cfg, w, role, None, now, UNMARKED);
  }

  /** One key, two deliveries, every send returning: the `try` block also covers the update that
      marks the claim, and when that raises the claim of the delivered message is released. */
  lemma SameKeyDeliversTwice(cfg: Config, s: Sys, c: nat, key: string) returns (t: Sys)
    requires Reachable(cfg, s) && Awaits(s.w, c) && Reply(key) !in s.w.claims
    ensures Reachable(cfg, t)
    ensures Count(t.w.oplog, IsSendOf(key)) == Count(s.w.oplog, IsSendOf(key)) + 2
  {
    var role := ReplyRole(c, key);
    var first := ReplyHappens(cfg, s, role, UNMARKED);
    t := ReplyHappens(cfg, first, role, UP);
    UnmarkedIsReleased(cfg, s.w, role, s.clock);
    RetryWithTheSameKey(cfg, s.w, role, None, s.clock, UNMARKED, first.clock, UP);
  }
}
