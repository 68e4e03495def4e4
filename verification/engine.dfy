/** The transaction engine: one transaction's (status, location, active)
    record and the deterministic transitions `move` and `error` over it. */
module Engine {
  import opened Outcomes
  import opened Vocabulary

  datatype Txn = Txn(status: Status, location: Location, active: bool) {
    function Pair(): Pair {
      (status, location)
    }
  }

  /** `Transaction.move`: dead ends are rejected, otherwise one hop along the
      routing graph. The chain is total over all eighteen pairs, because a
      transaction created directly may sit in a pair outside the table; at the
      destination bank a non-terminal status falls through every branch and
      the call succeeds without a change. */
  function Move(t: Txn): (r: Result<Txn>)
    ensures r.Fail? <==> IsTerminal(t.status)
    ensures r.Fail? ==> r.error == InvalidStateTransition
    ensures r.Ok? ==> r.value.active == t.active
    ensures r.Ok? && ValidPair(t.Pair()) ==> ValidPair(r.value.Pair()) && r.value.Pair() != t.Pair()
  {
    if IsTerminal(t.status) then Fail(InvalidStateTransition)
    else
      match t.location
      case OriginatorBank => Ok(t.(location := Routable))
      case Routable =>
        if t.status == Status.Processing then Ok(t.(location := DestinationBank, status := Completed))
        else if t.status == Fixing then Ok(t.(status := Status.Processing))
        else assert t.status == Refunding; Ok(t.(status := Refunded, location := OriginatorBank))
      case DestinationBank => Ok(t)
  }

  /** `Transaction.error`: only a processing, routable transaction may error. */
  function MarkError(t: Txn): (r: Result<Txn>)
    ensures r.Ok? <==> t.Pair() == PairOf(B)
    ensures r.Fail? ==> r.error == InvalidStateTransition
    ensures r.Ok? ==> r.value.Pair() == PairOf(D) && r.value.active == t.active
  {
    if !(t.status == Status.Processing && t.location == Routable) then Fail(InvalidStateTransition)
    else Ok(t.(location := Routable, status := Status.Error))
  }

  /** `Transaction.mark_inactive` on the record: only the flag changes. */
  function MarkInactive(t: Txn): (r: Txn)
    ensures !r.active
    ensures r.Pair() == t.Pair()
  {
    t.(active := false)
  }

  /** The routing graph over named states, written as a table. */
  function Successor(n: StateName): Option<StateName> {
    match n
    case A => Some(B)
    case B => Some(C)
    case G => Some(B)
    case E => Some(F)
    case C => None
    case D => None
    case F => None
  }

  /** The error edge over named states. */
  function ErrorSuccessor(n: StateName): Option<StateName> {
    if n == B then Some(D) else None
  }

  /** How many successful moves a named state is away from a dead end. */
  function Distance(n: StateName): nat {
    match n
    case A => 2
    case G => 2
    case B => 1
    case E => 1
    case C => 0
    case D => 0
    case F => 0
  }

  /** On the legal pairs `move` is exactly the table, and every successful
      move brings the transaction one step closer to a dead end, so at most
      two moves succeed in a row. */
  lemma MoveFollowsTable(t: Txn, n: StateName)
    requires t.Pair() == PairOf(n)
    ensures Move(t).Ok? <==> Successor(n).Some?
    ensures Move(t).Ok? ==> Move(t).value.Pair() == PairOf(Successor(n).value)
    ensures Move(t).Ok? ==> Distance(Successor(n).value) < Distance(n)
  {
  }

  /** On the legal pairs `error` is exactly the error edge. */
  lemma MarkErrorFollowsTable(t: Txn, n: StateName)
    requires t.Pair() == PairOf(n)
    ensures MarkError(t).Ok? <==> ErrorSuccessor(n).Some?
    ensures MarkError(t).Ok? ==> MarkError(t).value.Pair() == PairOf(ErrorSuccessor(n).value)
  {
  }

  /** Both transitions map legal pairs to legal pairs. */
  lemma TransitionsStayValid(t: Txn)
    requires ValidPair(t.Pair())
    ensures Move(t).Ok? ==> ValidPair(Move(t).value.Pair())
    ensures MarkError(t).Ok? ==> ValidPair(MarkError(t).value.Pair())
  {
  }
}
