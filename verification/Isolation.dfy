/** Conversations do not interfere: what happens to one is what would have happened had the
    service served nobody else. */
module Isolation {
  import opened Options
  import opened Phone
  import opened Records
  import opened Processes
  import opened Sequential
  import opened Timeline

  /** Which conversation each message id and each idempotency key belongs to. */
  type Owner = ClaimRef -> Key

  /** Whether an operation acts on the conversation of a key, which is at position `c`. */
  predicate Concerns(op: Op, c: nat, own: Owner, k: Key) {
    match op
    case InsertClaim(ref, _) => own(ref) == k
    case MarkSent(ref) => own(ref) == k
    case DeleteClaim(ref, _) => own(ref) == k
    case ExpireClaim(ref) => own(ref) == k
    case InsertConv(doc) => HasKey(doc, k.hash, k.brand)
    case InsertRow(row) => row.conv == c
    case Send(d, _, _, _, _, _) => d == c
    case Notify(d, _, _, _) => d == c
    case _ => EditsConv(op) && op.conv == c
  }

  /** The same operation on a collection that holds only its own conversation. */
  function Moved(op: Op): Op {
    match op
    case Touch(_, at) => Touch(0, at)
    case SetEscalated(_, reason, at) => SetEscalated(0, reason, at)
    case SetResolved(_, via, agent) => SetResolved(0, via, agent)
    case SetClosed(_) => SetClosed(0)
    case UnsetPhone(_, cutoff) => UnsetPhone(0, cutoff)
    case InsertRow(row) => InsertRow(row.(conv := 0))
    case Send(_, sender, to, line, token, body) => Send(0, sender, to, line, token, body)
    case Notify(_, question, reason, inbox) => Notify(0, question, reason, inbox)
    case _ => op
  }

  function RowsAt(rows: seq<Row>, c: nat): seq<Row> {
    if rows == [] then []
    else
      var before, last := RowsAt(rows[..|rows| - 1], c), rows[|rows| - 1];
      if last.conv == c then before + [last.(conv := 0)] else before
  }

  function OpsAt(log: seq<Op>, c: nat, own: Owner, k: Key): seq<Op> {
    if log == [] then []
    else
      var before, last := OpsAt(log[..|log| - 1], c, own, k), log[|log| - 1];
      if Concerns(last, c, own, k) then before + [Moved(last)] else before
  }

  function ClaimsOf(claims: map<ClaimRef, Claim>, own: Owner, k: Key): map<ClaimRef, Claim> {
    map ref | ref in claims && own(ref) == k :: claims[ref]
  }

  /** The world as the conversation at position `c` sees it: nobody else's documents, rows,
      claims or operations. */
  function ProjectAt(w: World, c: nat, own: Owner, k: Key): World {
    World(ClaimsOf(w.claims, own, k), if c < |w.convs| then [w.convs[c]] else [], RowsAt(w.rows, c),
          OpsAt(w.oplog, c, own, k))
  }

  function Project(w: World, own: Owner, k: Key): World {
    ProjectAt(w, At(w, k), own, k)
  }

  /** An operation names no conversation that does not exist. */
  predicate Sited(op: Op, n: nat) {
    && (EditsConv(op) || op.Send? || op.Notify? ==> op.conv < n)
    && (op.InsertRow? ==> op.row.conv < n)
  }

  ghost predicate Tidy(w: World) {
    && (forall i :: 0 <= i < |w.rows| ==> w.rows[i].conv < |w.convs|)
    && (forall i :: 0 <= i < |w.oplog| ==> Sited(w.oplog[i], |w.convs|))
  }

  lemma {:induction false} NoRowsAt(rows: seq<Row>, c: nat)
    requires forall i :: 0 <= i < |rows| ==> rows[i].conv < c
    ensures RowsAt(rows, c) == []
  {
    if rows == [] {
    } else {
      NoRowsAt(rows[..|rows| - 1], c);
    }
  }

  lemma {:induction false} OpsBeyond(log: seq<Op>, c: nat, d: nat, own: Owner, k: Key)
    requires forall i :: 0 <= i < |log| ==> Sited(log[i], c)
    requires c <= d
    ensures OpsAt(log, c, own, k) == OpsAt(log, d, own, k)
  {
    if log == [] {
    } else {
      OpsBeyond(log[..|log| - 1], c, d, own, k);
    }
  }

  lemma LogGrows(log: seq<Op>, op: Op, c: nat, own: Owner, k: Key)
    ensures OpsAt(log + [op], c, own, k)
            == if Concerns(op, c, own, k) then OpsAt(log, c, own, k) + [Moved(op)] else OpsAt(log, c, own, k)
  {
    assert (log + [op])[..|log|] == log;
  }

  lemma RowsGrow(rows: seq<Row>, row: Row, c: nat)
    ensures RowsAt(rows + [row], c)
            == if row.conv == c then RowsAt(rows, c) + [row.(conv := 0)] else RowsAt(rows, c)
  {
    assert (rows + [row])[..|rows|] == rows;
  }

  lemma AtIsFirst(w: World, k: Key, i: nat)
    requires i <= |w.convs|
    requires i < |w.convs| ==> HasKey(w.convs[i], k.hash, k.brand)
    requires forall j :: 0 <= j < i ==> !HasKey(w.convs[j], k.hash, k.brand)
    ensures At(w, k) == i
  {
  }

  predicate Displaces(w: World, op: Op, k: Key) {
    op.InsertConv? && Effective(w, op) && At(w, k) == |w.convs| && !HasKey(op.doc, k.hash, k.brand)
  }

  lemma AtAfter(w: World, op: Op, k: Key)
    ensures At(Perform(w, op), k) == if Displaces(w, op, k) then |w.convs| + 1 else At(w, k)
  {
    var y := Perform(w, op);
    forall i | 0 <= i < |w.convs| ensures HasKey(y.convs[i], k.hash, k.brand) == HasKey(w.convs[i], k.hash, k.brand) {
      assert EditsConv(op) || y.convs[i] == w.convs[i];
    }
    AtIsFirst(y, k, if Displaces(w, op, k) then |w.convs| + 1 else At(w, k));
  }

  /** Performing an operation and looking at one position commute. */
  predicate ProjectsAt(w: World, op: Op, c: nat, own: Owner, k: Key) {
    ProjectAt(Perform(w, op), c, own, k)
    == if Concerns(op, c, own, k) then Perform(ProjectAt(w, c, own, k), Moved(op)) else ProjectAt(w, c, own, k)
  }

  /** Performing an operation and looking at one conversation commute. */
  predicate Projects(w: World, op: Op, own: Owner, k: Key) {
    Project(Perform(w, op), own, k)
    == if Concerns(op, At(w, k), own, k) then Perform(Project(w, own, k), Moved(op)) else Project(w, own, k)
  }

  lemma StaysTidy(w: World, op: Op)
    requires Tidy(w) && (op.Send? || op.Notify? || op.InsertRow? ==> Sited(op, |w.convs|))
    ensures Tidy(Perform(w, op))
  {
    if Effective(w, op) {
      assert Sited(op, |w.convs|);
    }
  }

  lemma ProjectsOwnClaim(w: World, op: Op, c: nat, own: Owner, k: Key)
    requires (op.InsertClaim? || op.MarkSent? || op.DeleteClaim?) && own(op.ref) == k
    ensures ProjectsAt(w, op, c, own, k)
  {
    LogGrows(w.oplog, op, c, own, k);
    var y, mine := Perform(w, op), ClaimsOf(w.claims, own, k);
    assert op.ref in mine <==> op.ref in w.claims;
    if op.InsertClaim? && op.ref !in mine {
      assert ClaimsOf(y.claims, own, k) == mine[op.ref := Claim(op.at, false)];
    } else if op.MarkSent? && op.ref in mine {
      assert ClaimsOf(y.claims, own, k) == mine[op.ref := mine[op.ref].(sent := true)];
    } else if op.DeleteClaim? {
      assert ClaimsOf(y.claims, own, k) == mine - {op.ref};
    }
  }

  lemma ProjectsForeignClaim(w: World, op: Op, c: nat, own: Owner, k: Key)
    requires (op.InsertClaim? || op.MarkSent? || op.DeleteClaim?) && own(op.ref) != k
    ensures ProjectsAt(w, op, c, own, k)
  {
    if Effective(w, op) {
      LogGrows(w.oplog, op, c, own, k);
      assert ClaimsOf(Apply(w, op).claims, own, k) == ClaimsOf(w.claims, own, k);
    }
  }

  /** The log of operations, seen from one position. */
  lemma LogProjects(w: World, op: Op, c: nat, own: Owner, k: Key)
    ensures OpsAt(Perform(w, op).oplog, c, own, k)
            == if Effective(w, op) && Concerns(op, c, own, k) then OpsAt(w.oplog, c, own, k) + [Moved(op)]
               else OpsAt(w.oplog, c, own, k)
  {
    LogGrows(w.oplog, op, c, own, k);
  }

  /** The rows, seen from one position. */
  lemma RowsProject(w: World, op: Op, c: nat)
    ensures RowsAt(Perform(w, op).rows, c)
            == if op.InsertRow? && op.row.conv == c then RowsAt(w.rows, c) + [op.row.(conv := 0)] else RowsAt(w.rows, c)
  {
    if op.InsertRow? {
      RowsGrow(w.rows, op.row, c);
    }
  }

  lemma RowPerformed(w: World, row: Row)
    ensures Perform(w, InsertRow(row)) == World(w.claims, w.convs, w.rows + [row], w.oplog + [InsertRow(row)])
  {
  }

  lemma OutPerformed(w: World, op: Op)
    requires op.Send? || op.Notify?
    ensures Perform(w, op) == World(w.claims, w.convs, w.rows, w.oplog + [op])
  {
  }

  /** A world is seen field by field. */
  lemma FieldByField(w: World, v: World, c: nat, own: Owner, k: Key)
    requires v.claims == ClaimsOf(w.claims, own, k)
    requires v.convs == (if c < |w.convs| then [w.convs[c]] else [])
    requires v.rows == RowsAt(w.rows, c) && v.oplog == OpsAt(w.oplog, c, own, k)
    ensures ProjectAt(w, c, own, k) == v
  {
  }

  lemma ProjectsRow(w: World, row: Row, c: nat, own: Owner, k: Key)
    ensures ProjectsAt(w, InsertRow(row), c, own, k)
  {
    var v, y := ProjectAt(w, c, own, k), Perform(w, InsertRow(row));
    LogProjects(w, InsertRow(row), c, own, k);
    RowsProject(w, InsertRow(row), c);
    RowPerformed(w, row);
    RowPerformed(v, row.(conv := 0));
    FieldByField(y, if row.conv == c then Perform(v, InsertRow(row.(conv := 0))) else v, c, own, k);
  }

  lemma ProjectsOut(w: World, op: Op, c: nat, own: Owner, k: Key)
    requires op.Send? || op.Notify?
    ensures ProjectsAt(w, op, c, own, k)
  {
    var v := ProjectAt(w, c, own, k);
    LogProjects(w, op, c, own, k);
    OutPerformed(w, op);
    OutPerformed(v, Moved(op));
    FieldByField(Perform(w, op), if op.conv == c then Perform(v, Moved(op)) else v, c, own, k);
  }

  /** An update applies to a conversation in its own collection as it does among the others. */
  lemma EditAlike(w: World, op: Op, own: Owner, k: Key)
    requires EditsConv(op)
    ensures var v := ProjectAt(w, op.conv, own, k);
            && Effective(v, Moved(op)) == Effective(w, op)
            && (Effective(w, op) ==> Apply(v, Moved(op)).convs == [Edit(w.convs[op.conv], op)])
  {
  }

  lemma ProjectsOwnEdit(w: World, op: Op, own: Owner, k: Key)
    requires EditsConv(op)
    ensures ProjectsAt(w, op, op.conv, own, k)
  {
    EditAlike(w, op, own, k);
    LogProjects(w, op, op.conv, own, k);
  }

  lemma ProjectsForeignEdit(w: World, op: Op, c: nat, own: Owner, k: Key)
    requires EditsConv(op) && op.conv != c
    ensures ProjectsAt(w, op, c, own, k)
  {
    LogProjects(w, op, c, own, k);
  }

  lemma ProjectsOwnInsert(w: World, doc: Conversation, own: Owner, k: Key)
    requires HasKey(doc, k.hash, k.brand)
    ensures ProjectsAt(w, InsertConv(doc), At(w, k), own, k)
  {
    LogGrows(w.oplog, InsertConv(doc), At(w, k), own, k);
    if Effective(w, InsertConv(doc)) {
      assert ProjectAt(w, At(w, k), own, k).convs == [];
    }
  }

  /** Somebody else's new conversation, inserted where ours would have been or after it. */
  lemma ProjectsForeignInsert(w: World, doc: Conversation, own: Owner, k: Key)
    requires Tidy(w) && !HasKey(doc, k.hash, k.brand)
    ensures Projects(w, InsertConv(doc), own, k)
  {
    var op, n, c := InsertConv(doc), |w.convs|, At(w, k);
    AtAfter(w, op, k);
    if Effective(w, op) {
      LogGrows(w.oplog, op, c, own, k);
      if c == n {
        NoRowsAt(w.rows, n);
        NoRowsAt(w.rows, n + 1);
        OpsBeyond(w.oplog, n, n + 1, own, k);
        LogGrows(w.oplog, op, n + 1, own, k);
      }
    }
  }

  lemma OpProjectsAt(w: World, op: Op, own: Owner, k: Key)
    requires !op.ExpireClaim? && (op.InsertConv? ==> HasKey(op.doc, k.hash, k.brand))
    ensures ProjectsAt(w, op, At(w, k), own, k)
  {
    var c := At(w, k);
    if op.Send? || op.Notify? {
      ProjectsOut(w, op, c, own, k);
    } else if op.InsertRow? {
      ProjectsRow(w, op.row, c, own, k);
    } else if EditsConv(op) {
      if op.conv == c {
        ProjectsOwnEdit(w, op, own, k);
      } else {
        ProjectsForeignEdit(w, op, c, own, k);
      }
    } else if op.InsertConv? {
      ProjectsOwnInsert(w, op.doc, own, k);
    } else if op.InsertClaim? || op.MarkSent? || op.DeleteClaim? {
      if own(op.ref) == k {
        ProjectsOwnClaim(w, op, c, own, k);
      } else {
        ProjectsForeignClaim(w, op, c, own, k);
      }
    }
  }

  lemma OpProjects(w: World, op: Op, own: Owner, k: Key)
    requires Tidy(w) && !op.ExpireClaim?
    requires op.Send? || op.Notify? || op.InsertRow? ==> Sited(op, |w.convs|)
    ensures Tidy(Perform(w, op)) && Projects(w, op, own, k)
  {
    AtAfter(w, op, k);
    StaysTidy(w, op);
    if op.InsertConv? && !HasKey(op.doc, k.hash, k.brand) {
      ProjectsForeignInsert(w, op.doc, own, k);
    } else {
      OpProjectsAt(w, op, own, k);
    }
  }

  /** One conversation's view of the world, known only by how operations act on it. */
  datatype Lens = Lens(own: Owner, k: Key, view: World -> World, tidy: World -> bool)

  predicate Placeable(w: World, op: Op) {
    !op.ExpireClaim? && (op.Send? || op.Notify? || op.InsertRow? ==> Sited(op, |w.convs|))
  }

  /** The view of what an operation made of the world is what the operation makes of the view. */
  predicate Commutes(l: Lens, w: World, op: Op) {
    && l.tidy(Perform(w, op))
    && l.view(Perform(w, op))
       == if Concerns(op, At(w, l.k), l.own, l.k) then Perform(l.view(w), Moved(op)) else l.view(w)
  }

  /** The view holds the conversation itself and its own claims. */
  ghost predicate Shows(l: Lens, w: World) {
    && l.view(w).convs == (if At(w, l.k) < |w.convs| then [w.convs[At(w, l.k)]] else [])
    && forall ref :: l.own(ref) == l.k ==>
         (ref in l.view(w).claims <==> ref in w.claims)
         && (ref in w.claims ==> l.view(w).claims[ref] == w.claims[ref])
  }

  ghost predicate Faithful(l: Lens) {
    && (forall w, op :: l.tidy(w) && Placeable(w, op) ==> Commutes(l, w, op))
    && forall w :: Shows(l, w)
  }

  ghost function LensOf(own: Owner, k: Key): Lens {
    Lens(own, k, (w: World) => Project(w, own, k), (w: World) => Tidy(w))
  }

  lemma LensIsFaithful(own: Owner, k: Key)
    ensures Faithful(LensOf(own, k))
  {
    var l := LensOf(own, k);
    forall w, op | l.tidy(w) && Placeable(w, op) ensures Commutes(l, w, op) {
      OpProjects(w, op, own, k);
    }
    forall w ensures Shows(l, w) {
    }
  }

  lemma OpView(w: World, op: Op, l: Lens)
    requires Faithful(l) && l.tidy(w) && Placeable(w, op)
    ensures Commutes(l, w, op) && Shows(l, w)
    ensures !op.InsertConv? ==> At(Perform(w, op), l.k) == At(w, l.k) && |Perform(w, op).convs| == |w.convs|
  {
    AtAfter(w, op, l.k);
  }

  /** What a call made of the world `w`, seen from one conversation: what the same call makes of
      that conversation alone, or nothing. */
  ghost predicate Mirrors(w: World, y: World, alone: World, mine: bool, l: Lens) {
    l.tidy(y) && l.view(y) == if mine then alone else l.view(w)
  }

  lemma CallView(w: World, op: Op, fault: Fault, l: Lens)
    requires Faithful(l) && l.tidy(w) && Placeable(w, op)
    ensures var y := AfterCall(w, op, fault);
            && Mirrors(w, y, AfterCall(l.view(w), Moved(op), fault), Concerns(op, At(w, l.k), l.own, l.k), l)
            && (!op.InsertConv? ==> At(y, l.k) == At(w, l.k) && |y.convs| == |w.convs|)
    ensures Shows(l, w)
  {
    OpView(w, op, l);
  }

  lemma ReleasedMirrors(w: World, ref: ClaimRef, late: bool, net: Net, l: Lens)
    requires Faithful(l) && l.tidy(w)
    ensures Mirrors(w, Released(w, ref, late, net).w, Released(l.view(w), ref, late, net).w, l.own(ref) == l.k, l)
  {
    CallView(w, DeleteClaim(ref, late), net(Releasing), l);
  }

  /** The claim and the conversation a call works with belong to the same key. */
  predicate OfOneKey(w: World, ref: ClaimRef, c: nat, l: Lens) {
    c < |w.convs| && (l.own(ref) == l.k) == (c == At(w, l.k))
  }

  lemma AlertMirrors(w: World, msg: Message, inbox: Option<string>, c: nat, net: Net, l: Lens)
    requires Faithful(l) && l.tidy(w) && OfOneKey(w, Inbound(msg.id), c, l)
    ensures Mirrors(w, Alert(w, msg, inbox, c, net).w, Alert(l.view(w), msg, inbox, 0, net).w, c == At(w, l.k), l)
  {
    var op := Notify(c, msg.text, ESCALATION_REASON, inbox);
    CallView(w, op, net(Notifying), l);
    ReleasedMirrors(AfterCall(w, op, net(Notifying)), Inbound(msg.id), true, net, l);
  }

  lemma EscalateMirrors(w: World, msg: Message, inbox: Option<string>, c: nat, now: real, net: Net, l: Lens)
    requires Faithful(l) && l.tidy(w) && OfOneKey(w, Inbound(msg.id), c, l)
    ensures Mirrors(w, Escalate(w, msg, inbox, c, now, net).w, Escalate(l.view(w), msg, inbox, 0, now, net).w,
                    c == At(w, l.k), l)
  {
    var op := SetEscalated(c, ESCALATION_REASON, now);
    var y := AfterCall(w, op, net(Escalating));
    CallView(w, op, net(Escalating), l);
    if net(Escalating) == Returns {
      AlertMirrors(y, msg, inbox, c, net, l);
    } else {
      ReleasedMirrors(y, Inbound(msg.id), true, net, l);
    }
  }

  lemma LogJaneMirrors(
    w: World, msg: Message, inbox: Option<string>, c: nat, answer: Option<string>, now: real, net: Net, l: Lens)
    requires Faithful(l) && l.tidy(w) && OfOneKey(w, Inbound(msg.id), c, l)
    ensures Mirrors(w, LogJane(w, msg, inbox, c, answer, now, net).w,
                    LogJane(l.view(w), msg, inbox, 0, answer, now, net).w, c == At(w, l.k), l)
  {
    var op := InsertRow(Row(c, FromJane(answer.None?), JaneBody(answer), now));
    var y := AfterCall(w, op, net(LoggingReply));
    CallView(w, op, net(LoggingReply), l);
    if net(LoggingReply) != Returns {
      ReleasedMirrors(y, Inbound(msg.id), true, net, l);
    } else if answer.None? {
      EscalateMirrors(y, msg, inbox, c, now, net, l);
    }
  }

  lemma AnswerMirrors(
    w: World, msg: Message, context: Context, c: nat, answer: Option<string>, now: real, net: Net, l: Lens)
    requires Faithful(l) && l.tidy(w) && OfOneKey(w, Inbound(msg.id), c, l)
    ensures Mirrors(w, Answer(w, msg, context, c, answer, now, net).w,
                    Answer(l.view(w), msg, context, 0, answer, now, net).w, c == At(w, l.k), l)
  {
    var op := Send(c, Jane(msg.id, answer.None?), Addressed(msg.sender), msg.number, context.token, JaneBody(answer));
    var y := AfterCall(w, op, net(Sending));
    CallView(w, op, net(Sending), l);
    if net(Sending) == Returns {
      LogJaneMirrors(y, msg, context.inbox, c, answer, now, net, l);
    } else {
      ReleasedMirrors(y, Inbound(msg.id), net(Sending) == AppliedButRaised, net, l);
    }
  }

  lemma ConsultMirrors(
    w: World, msg: Message, context: Context, c: nat, answer: Option<string>, now: real, net: Net, l: Lens)
    requires Faithful(l) && l.tidy(w) && OfOneKey(w, Inbound(msg.id), c, l)
    ensures Mirrors(w, Consult(w, msg, context, c, answer, now, net).w,
                    Consult(l.view(w), msg, context, 0, answer, now, net).w, c == At(w, l.k), l)
  {
    if net(Answering) == Returns {
      AnswerMirrors(w, msg, context, c, answer, now, net, l);
    } else {
      ReleasedMirrors(w, Inbound(msg.id), false, net, l);
    }
  }

  lemma LogCustomerMirrors(
    w: World, msg: Message, context: Context, c: nat, doc: Conversation, answer: Option<string>, now: real,
    net: Net, l: Lens)
    requires Faithful(l) && l.tidy(w) && OfOneKey(w, Inbound(msg.id), c, l)
    ensures Mirrors(w, LogCustomer(w, msg, context, c, doc, answer, now, net).w,
                    LogCustomer(l.view(w), msg, context, 0, doc, answer, now, net).w, c == At(w, l.k), l)
  {
    var op := InsertRow(Row(c, FromCustomer, msg.text, now));
    var y := AfterCall(w, op, net(LoggingInbound));
    CallView(w, op, net(LoggingInbound), l);
    if net(LoggingInbound) != Returns {
      ReleasedMirrors(y, Inbound(msg.id), false, net, l);
    } else if doc.state != Escalated {
      ConsultMirrors(y, msg, context, c, answer, now, net, l);
    }
  }

  lemma ConverseMirrors(
    w: World, msg: Message, context: Context, c: nat, doc: Conversation, answer: Option<string>, now: real,
    net: Net, l: Lens)
    requires Faithful(l) && l.tidy(w) && OfOneKey(w, Inbound(msg.id), c, l)
    ensures Mirrors(w, Converse(w, msg, context, c, doc, answer, now, net).w,
                    Converse(l.view(w), msg, context, 0, doc, answer, now, net).w, c == At(w, l.k), l)
  {
    var y := AfterCall(w, Touch(c, now), net(Touching));
    CallView(w, Touch(c, now), net(Touching), l);
    if net(Touching) == Returns {
      LogCustomerMirrors(y, msg, context, c, doc, answer, now, net, l);
    } else {
      ReleasedMirrors(y, Inbound(msg.id), false, net, l);
    }
  }

  /** Finding or creating the conversation of another key leaves ours alone; finding or creating
      ours finds or creates it in the projection. */
  ghost predicate GotMirrored(w: World, got: Got, alone: Got, mine: bool, l: Lens) {
    && Mirrors(w, got.w, alone.w, mine, l)
    && (mine ==> got.Got? == alone.Got?)
    && (got.Got? ==>
          && got.conv < |got.w.convs| && (got.conv == At(got.w, l.k)) == mine
          && (mine ==> alone.conv == 0 && alone.doc == got.doc))
  }

  lemma CreateMirrors(
    cfg: Config, w: World, msg: Message, context: Context, now: real, nonce: nat, net: Net, l: Lens)
    requires Faithful(l) && l.tidy(w) && At(w, SenderKey(cfg, msg, context)) == |w.convs|
    ensures GotMirrored(w, Create(cfg, w, msg, context.brand, now, nonce, net),
                        Create(cfg, l.view(w), msg, context.brand, now, nonce, net),
                        SenderKey(cfg, msg, context) == l.k, l)
  {
    var doc := NewConversation(cfg, msg, context.brand, now, nonce);
    CallView(w, InsertConv(doc), net(Creating), l);
    AtAfter(w, InsertConv(doc), l.k);
  }

  lemma GotMirrors(
    cfg: Config, w: World, msg: Message, context: Context, now: real, nonce: nat, net: Net, l: Lens)
    requires Faithful(l) && l.tidy(w)
    ensures GotMirrored(w, GetOrCreate(cfg, w, msg, context.brand, now, nonce, net),
                        GetOrCreate(cfg, l.view(w), msg, context.brand, now, nonce, net),
                        SenderKey(cfg, msg, context) == l.k, l)
  {
    assert Shows(l, w);
    if At(w, SenderKey(cfg, msg, context)) == |w.convs| {
      CreateMirrors(cfg, w, msg, context, now, nonce, net, l);
    }
  }

  lemma ConverseWithMirrors(
    w: World, got: Got, alone: Got, msg: Message, context: Context, answer: Option<string>, now: real, mine: bool,
    net: Net, l: Lens)
    requires Faithful(l) && GotMirrored(w, got, alone, mine, l) && mine == (l.own(Inbound(msg.id)) == l.k)
    ensures Mirrors(w, ConverseWith(got, msg, context, answer, now, net).w,
                    ConverseWith(alone, msg, context, answer, now, net).w, mine, l)
  {
    if got.Got? {
      ConverseMirrors(got.w, msg, context, got.conv, got.doc, answer, now, net, l);
    } else {
      ReleasedMirrors(got.w, Inbound(msg.id), false, net, l);
    }
  }

  lemma AcceptMirrors(
    cfg: Config, w: World, msg: Message, context: Context, answer: Option<string>, now: real, nonce: nat,
    net: Net, l: Lens)
    requires Faithful(l) && l.tidy(w) && l.own(Inbound(msg.id)) == SenderKey(cfg, msg, context)
    ensures Mirrors(w, Accept(cfg, w, msg, context, answer, now, nonce, net).w,
                    Accept(cfg, l.view(w), msg, context, answer, now, nonce, net).w,
                    SenderKey(cfg, msg, context) == l.k, l)
  {
    GotMirrors(cfg, w, msg, context, now, nonce, net, l);
    ConverseWithMirrors(w, GetOrCreate(cfg, w, msg, context.brand, now, nonce, net),
                        GetOrCreate(cfg, l.view(w), msg, context.brand, now, nonce, net), msg, context, answer, now,
                        SenderKey(cfg, msg, context) == l.k, net, l);
  }

  lemma DeliverMirrors(
    cfg: Config, w: World, msg: Message, context: Context, answer: Option<string>, now: real, nonce: nat,
    net: Net, l: Lens)
    requires Faithful(l) && l.tidy(w) && l.own(Inbound(msg.id)) == SenderKey(cfg, msg, context)
    ensures Mirrors(w, Deliver(cfg, w, msg, Some(context), answer, now, nonce, net).w,
                    Deliver(cfg, l.view(w), msg, Some(context), answer, now, nonce, net).w,
                    SenderKey(cfg, msg, context) == l.k, l)
  {
    var op := InsertClaim(Inbound(msg.id), now);
    CallView(w, op, net(Claiming), l);
    if net(Resolving) == Returns && net(Claiming) == Returns && Inbound(msg.id) !in w.claims {
      AcceptMirrors(cfg, AfterCall(w, op, net(Claiming)), msg, context, answer, now, nonce, net, l);
    }
  }
}
