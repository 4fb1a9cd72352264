/** The bound of `LateReplies` is reached: any number of requests past their check deliver after
    another reply has gone through and resolved the conversation. */
module Overtaking {
  import opened Options
  import opened Counting
  import opened Records
  import opened Processes
  import opened Sequential
  import opened Service
  import opened ClaimProtocol
  import opened Solo
  import opened LateReplies
  import opened Volleys
  import Replies
  import Gaps

  /** Keys that differ from one another and that nobody has claimed. */
  predicate Unused(w: World, keys: seq<string>) {
    && (forall j, k :: 0 <= j < k < |keys| ==> keys[j] != keys[k])
    && (forall j :: 0 <= j < |keys| ==> Reply(keys[j]) !in w.claims)
  }

  /** On a conversation that awaits a reply, one request for each of the keys stands before its send;
      they are the processes after `s`, which have changed nothing but claims. */
  ghost predicate Gathered(cfg: Config, s: Sys, t: Sys, c: nat, keys: seq<string>) {
    && Reachable(cfg, t) && t.w.convs == s.w.convs
    && |t.procs| == |s.procs| + |keys| && t.procs[..|s.procs|] == s.procs
    && (forall ref :: ref in t.w.claims ==> ref in s.w.claims || (ref.Reply? && ref.key in keys))
    && Loaded(cfg, t.procs, |s.procs|, |keys|, AgentSend(c))
    && Count(t.procs, Pending(c)) == Count(s.procs, Pending(c)) + |keys|
  }

  lemma ReplyingIsArmed(cfg: Config, s: Sys, pid: nat, c: nat, key: string)
    requires Reachable(cfg, s) && pid < |s.procs| && Gaps.Replying(View(s, pid), c, key) && s.procs[pid].pc == Sending
    ensures Armed(cfg, s.procs[pid], AgentSend(c)) && MayReply(s.procs[pid], c)
  {
    var states, actions :| IsRun(cfg, states, actions) && states[|actions|] == s;
    ReadInRun(cfg, states, actions, |actions|);
  }

  lemma Joins(cfg: Config, procs: seq<Proc>, p: Proc, first: nat, n: nat, f: Op -> bool)
    requires Loaded(cfg, procs, first, n, f) && |procs| == first + n && Armed(cfg, p, f)
    ensures Loaded(cfg, procs + [p], first, n + 1, f)
  {
  }

  /** A further request of its own key that is gathered too. */
  lemma OneMoreArrives(cfg: Config, t: Sys, c: nat, key: string) returns (u: Sys, p: Proc)
    requires Reachable(cfg, t) && Replies.Awaits(t.w, c) && Reply(key) !in t.w.claims
    ensures Reachable(cfg, u) && u.procs == t.procs + [p] && u.w.convs == t.w.convs
    ensures Armed(cfg, p, AgentSend(c)) && Count(u.procs, Pending(c)) == Count(t.procs, Pending(c)) + 1
    ensures forall ref :: ref in u.w.claims ==> ref in t.w.claims || ref == Reply(key)
  {
    u := Gaps.ReplyArrives(cfg, t, c, key);
    p := u.procs[|t.procs|];
    ReplyingIsArmed(cfg, u, |t.procs|, c, key);
    assert u.procs == t.procs + [p];
    CountAppend(t.procs, p, Pending(c));
  }

  lemma OneMoreGathers(cfg: Config, s: Sys, t: Sys, c: nat, keys: seq<string>, key: string) returns (u: Sys)
    requires Gathered(cfg, s, t, c, keys) && Replies.Awaits(s.w, c) && Unused(s.w, keys + [key])
    ensures Gathered(cfg, s, u, c, keys + [key])
  {
    assert (keys + [key])[|keys|] == key && forall j :: 0 <= j < |keys| ==> (keys + [key])[j] == keys[j];
    var p;
    u, p := OneMoreArrives(cfg, t, c, key);
    Joins(cfg, t.procs, p, |s.procs|, |keys|, AgentSend(c));
    assert u.procs[..|s.procs|] == t.procs[..|s.procs|];
  }

  lemma {:induction false} RepliesGather(cfg: Config, s: Sys, c: nat, keys: seq<string>) returns (t: Sys)
    requires Reachable(cfg, s) && Replies.Awaits(s.w, c) && Unused(s.w, keys)
    ensures Gathered(cfg, s, t, c, keys)
    decreases |keys|
  {
    if keys == [] {
      t := s;
    } else {
      var n := |keys| - 1;
      assert keys[..n] + [keys[n]] == keys;
      t := RepliesGather(cfg, s, c, keys[..n]);
      t := OneMoreGathers(cfg, s, t, c, keys[..n], keys[n]);
    }
  }

  /** A reply goes through from its first line to its last while the others wait. */
  lemma ReplyOvertakes(cfg: Config, t: Sys, c: nat, key: string) returns (u: Sys)
    requires Reachable(cfg, t) && Replies.Awaits(t.w, c) && Reply(key) !in t.w.claims
    ensures Reachable(cfg, u) && |u.procs| == |t.procs| + 1 && u.procs[..|t.procs|] == t.procs
    ensures Replies.WentThrough(t.w, u.w, Gaps.ReplyRole(c, key), t.clock) && !IsEscalated(u, c)
    ensures Count(u.procs, Pending(c)) == Count(t.procs, Pending(c))
  {
    var role := Gaps.ReplyRole(c, key);
    u := Gaps.ReplyHappens(cfg, t, role, UP);
    Replies.ReplyOutcome(cfg, t.w, role, None, t.clock, UP);
    Replies.ReplyGoesThrough(cfg, t.w, role, None, t.clock, UP);
    assert u.procs == t.procs + [u.procs[|t.procs|]];
    CountAppend(t.procs, u.procs[|t.procs|], Pending(c));
  }

  lemma StillLoaded(cfg: Config, procs: seq<Proc>, longer: seq<Proc>, first: nat, n: nat, f: Op -> bool)
    requires Loaded(cfg, procs, first, n, f) && |procs| <= |longer| && longer[..|procs|] == procs
    ensures Loaded(cfg, longer, first, n, f)
  {
    assert forall j :: 0 <= j < |procs| ==> longer[j] == procs[j];
  }

  /** Wherever a conversation awaits a reply, one reply under an unused key can go through, with its
      row, its marked claim and its resolve, and afterwards as many others as there are unused keys
      are delivered, while the conversation stays as that resolve left it. The requests pending when
      that stretch begins are exactly those, besides any that were pending already. */
  lemma RepliesOvertaken(cfg: Config, s: Sys, c: nat, key: string, keys: seq<string>)
    returns (mid: Sys, states: seq<Sys>, actions: seq<Action>, i: nat)
    requires Reachable(cfg, s) && Replies.Awaits(s.w, c) && Unused(s.w, [key] + keys)
    ensures IsRun(cfg, states, actions) && i <= |actions|
    ensures mid.w.convs == s.w.convs && Replies.WentThrough(mid.w, states[i].w, Gaps.ReplyRole(c, key), mid.clock)
    ensures forall k :: i <= k <= |actions| ==> states[k].w.convs == states[i].w.convs && !IsEscalated(states[k], c)
    ensures Count(states[|actions|].w.oplog, AgentSend(c)) == Count(states[i].w.oplog, AgentSend(c)) + |keys|
    ensures Count(states[i].procs, Pending(c)) == Count(s.procs, Pending(c)) + |keys|
  {
    assert ([key] + keys)[0] == key && forall j :: 0 <= j < |keys| ==> ([key] + keys)[j + 1] == keys[j];
    mid := RepliesGather(cfg, s, c, keys);
    var u := ReplyOvertakes(cfg, mid, c, key);
    StillLoaded(cfg, mid.procs, u.procs, |s.procs|, |keys|, AgentSend(c));
    states, actions, i := Volley(cfg, u, |s.procs|, |keys|, AgentSend(c));
  }

  /** Keys told apart by their length. */
  function Key(n: nat): string {
    seq(n + 1, (i: nat) => 'k')
  }

  function Keys(n: nat): seq<string> {
    seq(n, (j: nat) => Key(j))
  }

  lemma KeysAreUnused(w: World, n: nat)
    requires forall key :: Reply(key) !in w.claims
    ensures Unused(w, Keys(n))
  {
    forall j, k | 0 <= j < k < n ensures Keys(n)[j] != Keys(n)[k] {
      assert |Key(j)| == j + 1 && |Key(k)| == k + 1;
    }
  }

  /** Without a request of an agent there is no claim of one. */
  lemma NoRequestNoClaim(cfg: Config, s: Sys, key: string)
    requires Reachable(cfg, s) && forall i :: 0 <= i < |s.procs| ==> !s.procs[i].role.AgentReply?
    ensures Reply(key) !in s.w.claims
  {
    ClaimsReachable(cfg, s);
    assert Balanced(s, Reply(key));
    CountZero(s.procs, Owner(Reply(key)));
  }

  lemma NoRequestUnused(cfg: Config, s: Sys, n: nat)
    requires Reachable(cfg, s) && forall i :: 0 <= i < |s.procs| ==> !s.procs[i].role.AgentReply?
    ensures Unused(s.w, Keys(n)) && Count(s.procs, Pending(0)) == 0
  {
    forall key ensures Reply(key) !in s.w.claims {
      NoRequestNoClaim(cfg, s, key);
    }
    KeysAreUnused(s.w, n);
    CountZero(s.procs, Pending(0));
  }

  /** The bound of `LateReplies.RepliesAfterResolve` is attained for every number of requests. */
  lemma LagIsAttained(cfg: Config, n: nat) returns (states: seq<Sys>, actions: seq<Action>, i: nat)
    requires cfg.slots >= 1
    ensures IsRun(cfg, states, actions) && i <= |actions|
    ensures forall k :: i <= k <= |actions| ==> !IsEscalated(states[k], 0)
    ensures Count(states[i].procs, Pending(0)) == n
    ensures Count(states[|actions|].w.oplog, AgentSend(0)) - Count(states[i].w.oplog, AgentSend(0)) == n
  {
    var s := Gaps.ComesToAwait(cfg);
    NoRequestUnused(cfg, s, n + 1);
    var key, others := Keys(n + 1)[0], Keys(n + 1)[1..];
    assert [key] + others == Keys(n + 1);
    var mid;
    mid, states, actions, i := RepliesOvertaken(cfg, s, 0, key, others);
  }
}
