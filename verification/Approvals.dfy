/** One-time approvals of exact operations, and the gate in front of destructive work. */
module Approvals {
  import opened Wrappers

  datatype ApprovalStatus = Pending | Approved | Rejected | Expired | Consumed

  /** The operation an approval is bound to; its fingerprint is taken to be free of collisions. */
  datatype Operation = Operation(verb: string, path: string, checksum: string)

  datatype Approval = Approval(tokenId: string, operation: Operation, status: ApprovalStatus, expiresAt: int)

  /** The store, with the counter its identifiers are made from. */
  datatype Book = Book(entries: map<nat, Approval>, counter: nat)

  const APPROVAL_TTL_MS: int := 24 * 3_600_000
  const DESTRUCTIVE := "database.destructive"

  datatype Token = Token(id: string, scopes: set<string>, approvalRequired: bool, environments: seq<string>)

  datatype Decision = Proceed(consumed: Option<nat>) | Held(id: nat) | ScopeDenied | ApprovalRefused

  predicate ValidBook(b: Book) {
    forall id :: id in b.entries ==> 1 <= id <= b.counter
  }

  function Requested(b: Book, tokenId: string, op: Operation, now: int): Book {
    Book(b.entries[b.counter + 1 := Approval(tokenId, op, Pending, now + APPROVAL_TTL_MS)], b.counter + 1)
  }

  /** Approved, unexpired, owned by the token, and for exactly this operation. */
  predicate Usable(b: Book, id: nat, tokenId: string, op: Operation, now: int) {
    && id in b.entries
    && b.entries[id].tokenId == tokenId
    && b.entries[id].status == Approved
    && now < b.entries[id].expiresAt
    && b.entries[id].operation == op
  }

  function WithStatus(b: Book, id: nat, s: ApprovalStatus): Book
    requires id in b.entries
  {
    b.(entries := b.entries[id := b.entries[id].(status := s)])
  }

  /** A human decision; an expired request is marked so instead. */
  function Decided(b: Book, id: nat, approve: bool, now: int): Book {
    if id !in b.entries || b.entries[id].status != Pending then b
    else if b.entries[id].expiresAt <= now then WithStatus(b, id, Expired)
    else WithStatus(b, id, if approve then Approved else Rejected)
  }

  /** What the destructive gate answers. */
  function Gate(b: Book, t: Token, alwaysApprove: bool, op: Operation, presented: Option<nat>, now: int): Decision {
    if !alwaysApprove && DESTRUCTIVE in t.scopes then Proceed(None)
    else if !alwaysApprove && !t.approvalRequired then ScopeDenied
    else match presented
      case Some(id) => if Usable(b, id, t.id, op, now) then Proceed(Some(id)) else ApprovalRefused
      case None => Held(b.counter + 1)
  }

  /** What the gate leaves in the store. */
  function Gated(b: Book, t: Token, alwaysApprove: bool, op: Operation, presented: Option<nat>, now: int): Book {
    match Gate(b, t, alwaysApprove, op, presented, now)
    case Proceed(Some(id)) => if id in b.entries then WithStatus(b, id, Consumed) else b
    case Held(_) => Requested(b, t.id, op, now)
    case _ => b
  }

  class AgentService {
    var approvals: map<nat, Approval>
    var counter: nat

    constructor ()
      ensures Contents() == Book(map[], 0)
    {
      approvals := map[];
      counter := 0;
    }

    ghost function Contents(): Book
      reads this
    {
      Book(approvals, counter)
    }

    method RequestApproval(tokenId: string, op: Operation, now: int) returns (id: nat)
      modifies this
      ensures Contents() == Requested(old(Contents()), tokenId, op, now) && id == counter
    {
      counter := counter + 1;
      id := counter;
      approvals := approvals[id := Approval(tokenId, op, Pending, now + APPROVAL_TTL_MS)];
    }

    method MarkConsumed(id: nat) returns (ok: bool)
      modifies this
      ensures ok <==> id in old(approvals) && old(approvals)[id].status == Approved
      ensures Contents() == if ok then WithStatus(old(Contents()), id, Consumed) else old(Contents())
    {
      if id !in approvals || approvals[id].status != Approved {
        return false;
      }
      approvals := approvals[id := approvals[id].(status := Consumed)];
      ok := true;
    }

    /** The checks in the order the service makes them; each failure leaves the store as it is. */
    method ConsumeApproval(id: nat, tokenId: string, op: Operation, now: int) returns (ok: bool)
      modifies this
      ensures ok <==> Usable(old(Contents()), id, tokenId, op, now)
      ensures Contents() == if ok then WithStatus(old(Contents()), id, Consumed) else old(Contents())
    {
      if id !in approvals || approvals[id].tokenId != tokenId {
        return false;
      }
      var current := approvals[id];
      if current.status != Approved {
        return false;
      }
      if current.expiresAt <= now {
        MarkExpired(id);
        return false;
      }
      if op != current.operation {
        return false;
      }
      ok := MarkConsumed(id);
    }

    method MarkExpired(id: nat)
      modifies this
      ensures Contents() == if id in old(approvals) && old(approvals)[id].status == Pending
                            then WithStatus(old(Contents()), id, Expired) else old(Contents())
    {
      if id in approvals && approvals[id].status == Pending {
        approvals := approvals[id := approvals[id].(status := Expired)];
      }
    }

    method DecideApproval(id: nat, approve: bool, now: int)
      modifies this
      ensures Contents() == Decided(old(Contents()), id, approve, now)
    {
      if id !in approvals || approvals[id].status != Pending {
        return;
      }
      if approvals[id].expiresAt <= now {
        MarkExpired(id);
        return;
      }
      approvals := approvals[id := approvals[id].(status := if approve then Approved else Rejected)];
    }

    method GateDestructive(t: Token, alwaysApprove: bool, op: Operation, presented: Option<nat>, now: int)
      returns (d: Decision)
      modifies this
      ensures d == Gate(old(Contents()), t, alwaysApprove, op, presented, now)
      ensures Contents() == Gated(old(Contents()), t, alwaysApprove, op, presented, now)
    {
      var allowed := !alwaysApprove && DESTRUCTIVE in t.scopes;
      var needsApproval := alwaysApprove || t.approvalRequired;
      if allowed {
        return Proceed(None);
      }
      if !needsApproval {
        return ScopeDenied;
      }
      if presented.Some? {
        var ok := ConsumeApproval(presented.value, t.id, op, now);
        return if ok then Proceed(presented) else ApprovalRefused;
      }
      var id := RequestApproval(t.id, op, now);
      d := Held(id);
    }
  }
}
