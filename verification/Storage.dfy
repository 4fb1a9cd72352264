/** The MongoDB collections as the service's code uses them: each method is one driver call, told
    how it goes and telling whether it raised. */
module Storage {
  import opened Options
  import opened Records
  import opened Processes
  import opened Sequential

  class Store {
    var claims: map<ClaimRef, Claim>
    var convs: seq<Conversation>
    var rows: seq<Row>
    ghost var oplog: seq<Op>

    ghost function W(): World
      reads this
    {
      World(claims, convs, rows, oplog)
    }

    constructor ()
      ensures W() == EMPTY_WORLD
    {
      claims, convs, rows, oplog := map[], [], [], [];
    }

    /** `insert_one` under the unique index; a duplicate raises `DuplicateKeyError`, which callers
        tell apart from every other exception. */
    method InsertClaim(ref: ClaimRef, at: real, fault: Fault) returns (raised: bool, duplicate: bool)
      modifies this
      ensures W() == AfterCall(old(W()), Op.InsertClaim(ref, at), fault)
      ensures raised == (fault != Returns) && duplicate == (ref in old(claims))
    {
      raised, duplicate := fault != Returns, ref in claims;
      if !duplicate && fault != Refused {
        claims := claims[ref := Claim(at, false)];
        oplog := oplog + [Op.InsertClaim(ref, at)];
      }
    }

    method FindClaim(ref: ClaimRef, fault: Fault) returns (raised: bool, found: Option<Claim>)
      ensures raised == (fault != Returns)
      ensures found == if ref in claims then Some(claims[ref]) else None
    {
      return fault != Returns, if ref in claims then Some(claims[ref]) else None;
    }

    method MarkSent(ref: ClaimRef, fault: Fault) returns (raised: bool)
      modifies this
      ensures W() == AfterCall(old(W()), Op.MarkSent(ref), fault) && raised == (fault != Returns)
    {
      raised := fault != Returns;
      if ref in claims && fault != Refused {
        claims := claims[ref := claims[ref].(sent := true)];
        oplog := oplog + [Op.MarkSent(ref)];
      }
    }

    method DeleteClaim(ref: ClaimRef, ghost late: bool, fault: Fault) returns (raised: bool)
      modifies this
      ensures W() == AfterCall(old(W()), Op.DeleteClaim(ref, late), fault) && raised == (fault != Returns)
    {
      raised := fault != Returns;
      if ref in claims && fault != Refused {
        claims := claims - {ref};
        oplog := oplog + [Op.DeleteClaim(ref, late)];
      }
    }

    /** `find_one` scans in insertion order. */
    method FindByKey(hash: string, brand: Option<string>, fault: Fault) returns (raised: bool, found: Option<nat>)
      ensures raised == (fault != Returns) && found == Search(convs, hash, brand)
    {
      var i := 0;
      while i < |convs|
        invariant 0 <= i <= |convs|
        invariant forall j :: 0 <= j < i ==> !HasKey(convs[j], hash, brand)
      {
        if HasKey(convs[i], hash, brand) {
          return fault != Returns, Some(i);
        }
        i := i + 1;
      }
      return fault != Returns, None;
    }

    method FindById(c: nat, fault: Fault) returns (raised: bool, found: Option<Conversation>)
      ensures raised == (fault != Returns)
      ensures found == if c < |convs| then Some(convs[c]) else None
    {
      return fault != Returns, if c < |convs| then Some(convs[c]) else None;
    }

    method InsertConversation(doc: Conversation, fault: Fault) returns (raised: bool, c: nat)
      requires Search(convs, doc.phoneHash, doc.brand).None?
      modifies this
      ensures W() == AfterCall(old(W()), InsertConv(doc), fault)
      ensures raised == (fault != Returns) && c == |old(convs)|
    {
      raised, c := fault != Returns, |convs|;
      if fault != Refused {
        convs := convs + [doc];
        oplog := oplog + [InsertConv(doc)];
      }
    }

    /** `update_one({"_id": conv, ...}, ...)`: the document changes if the query matches it. */
    method UpdateConversation(op: Op, fault: Fault) returns (raised: bool)
      requires EditsConv(op)
      modifies this
      ensures W() == AfterCall(old(W()), op, fault) && raised == (fault != Returns)
    {
      raised := fault != Returns;
      if op.conv < |convs| && fault != Refused {
        var doc := convs[op.conv];
        var matches := (op.SetClosed? ==> doc.state == JaneHandling) && (op.UnsetPhone? ==> Purgeable(doc, op.cutoff));
        if matches {
          convs := convs[op.conv := Edit(doc, op)];
          oplog := oplog + [op];
        }
      }
    }

    method InsertMessage(row: Row, fault: Fault) returns (raised: bool)
      modifies this
      ensures W() == AfterCall(old(W()), InsertRow(row), fault) && raised == (fault != Returns)
    {
      raised := fault != Returns;
      if fault != Refused {
        rows := rows + [row];
        oplog := oplog + [InsertRow(row)];
      }
    }
  }
}
