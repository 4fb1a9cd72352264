/** The two calls to the outside world, with whatever way they go. */
module CloudApi {
  import opened Records
  import opened Processes
  import opened Sequential
  import opened Storage

  /** `send_message` or `notify_escalation`: it may raise without effect, or after all. */
  method CallOut(ghost db: Store, ghost op: Op, fault: Fault) returns (raised: bool)
    requires op.Send? || op.Notify?
    modifies db
    ensures db.W() == AfterCall(old(db.W()), op, fault)
    ensures raised == (fault != Returns)
    ensures db.claims == old(db.claims) && db.convs == old(db.convs) && db.rows == old(db.rows)
  {
    if fault != Refused {
      db.oplog := db.oplog + [op];
    }
    raised := fault != Returns;
  }
}
