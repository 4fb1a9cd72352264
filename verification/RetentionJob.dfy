/** `scripts/purge_stale_phone_numbers.py`, step by step, and what a whole run of it means. */
module RetentionJob {
  import opened Options
  import opened Counting
  import opened Records
  import opened Processes
  import opened Sequential
  import opened Storage

  function Stale(cutoff: real): Conversation -> bool {
    (doc: Conversation) => doc.state != Escalated && doc.lastMessageAt < cutoff && doc.phoneEncrypted.Some?
  }

  function Unset(doc: Conversation, cutoff: real): Conversation {
    if Purgeable(doc, cutoff) then doc.(phoneEncrypted := None) else doc
  }

  /** The documents visited so far are done, the others untouched, and nothing else changed. */
  lemma {:induction false} PurgedSoFar(w: World, cutoff: real, n: nat)
    requires n <= |w.convs|
    ensures var y := Purged(w, cutoff, n);
            && |y.convs| == |w.convs| && y.rows == w.rows && y.claims == w.claims
            && forall c :: 0 <= c < |w.convs| ==> y.convs[c] == if c < n then Unset(w.convs[c], cutoff) else w.convs[c]
  {
    if n == 0 {
    } else {
      PurgedSoFar(w, cutoff, n - 1);
    }
  }

  lemma StaleIsPurgeable(doc: Conversation, cutoff: real)
    ensures Stale(cutoff)(doc) == Purgeable(doc, cutoff)
  {
  }

  lemma CountsOneMore(docs: seq<Conversation>, i: nat, cutoff: real)
    requires i < |docs|
    ensures Count(docs[..i + 1], Stale(cutoff)) == Count(docs[..i], Stale(cutoff)) + One(Purgeable(docs[i], cutoff))
  {
    assert docs[..i + 1] == docs[..i] + [docs[i]];
    CountAppend(docs[..i], docs[i], Stale(cutoff));
    StaleIsPurgeable(docs[i], cutoff);
  }

  /** `purge`: counts the stale documents and, unless it is a dry run, clears their numbers. */
  method Purge(db: Store, days: int, now: real, dryRun: bool) returns (count: nat)
    modifies db
    ensures count == Count(old(db.convs), Stale(now - (days as real) * 86400.0))
    ensures dryRun ==> db.W() == old(db.W())
    ensures !dryRun ==> db.W() == Purged(old(db.W()), now - (days as real) * 86400.0, |old(db.convs)|)
  {
    var cutoff := now - (days as real) * 86400.0;
    count := 0;
    var i := 0;
    while i < |db.convs|
      invariant 0 <= i <= |db.convs| == |old(db.convs)|
      invariant count == Count(old(db.convs)[..i], Stale(cutoff))
      invariant db.W() == if dryRun then old(db.W()) else Purged(old(db.W()), cutoff, i)
    {
      assert db.convs[i] == old(db.convs)[i] by {
        PurgedSoFar(old(db.W()), cutoff, i);
      }
      CountsOneMore(old(db.convs), i, cutoff);
      if Purgeable(db.convs[i], cutoff) {
        count := count + 1;
      }
      if !dryRun {
        var _ := db.UpdateConversation(UnsetPhone(i, cutoff), Returns);
      }
      i := i + 1;
    }
    assert old(db.convs)[..i] == old(db.convs);
  }

  /** A whole run clears exactly the numbers of stale conversations that await nobody; the
      hashes by which they are found stay; and a second run with that cutoff finds nothing. */
  lemma PurgeMeaning(w: World, cutoff: real, c: nat)
    requires c < |w.convs|
    ensures var y := Purged(w, cutoff, |w.convs|);
            && |y.convs| == |w.convs|
            && (y.convs[c].phoneEncrypted.None?
                <==> (w.convs[c].phoneEncrypted.None?
                      || (w.convs[c].state != Escalated && w.convs[c].lastMessageAt < cutoff)))
            && y.convs[c].(phoneEncrypted := None) == w.convs[c].(phoneEncrypted := None)
            && y.rows == w.rows && y.claims == w.claims
            && Count(y.convs, Stale(cutoff)) == 0
            && Purged(y, cutoff, |y.convs|) == y
  {
    PurgedSoFar(w, cutoff, |w.convs|);
    var y := Purged(w, cutoff, |w.convs|);
    CountZero(y.convs, Stale(cutoff));
    NothingStale(y, cutoff, |y.convs|);
  }

  lemma {:induction false} NothingStale(w: World, cutoff: real, n: nat)
    requires n <= |w.convs| && forall c :: 0 <= c < |w.convs| ==> !Purgeable(w.convs[c], cutoff)
    ensures Purged(w, cutoff, n) == w
  {
    if n == 0 {
    } else {
      NothingStale(w, cutoff, n - 1);
    }
  }
}
