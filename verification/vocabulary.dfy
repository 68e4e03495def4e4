/** The state vocabulary: transaction statuses and locations, the coarse item
    states, and the single source of truth for which (status, location) pairs
    are legal and which of them a transaction may be created in. */
module Vocabulary {
  import opened Outcomes

  datatype Status = Processing | Completed | Error | Refunding | Refunded | Fixing

  datatype Location = OriginatorBank | Routable | DestinationBank

  /** The caller-facing rollup of an item's progress. */
  datatype ItemState = Processing | Correcting | Error | Resolved

  type Pair = (Status, Location)

  /** The seven named states of the routing graph. */
  datatype StateName = A | B | C | D | E | F | G

  function PairOf(n: StateName): Pair {
    match n
    case A => (Status.Processing, OriginatorBank)
    case B => (Status.Processing, Routable)
    case C => (Completed, DestinationBank)
    case D => (Status.Error, Routable)
    case E => (Refunding, Routable)
    case F => (Refunded, OriginatorBank)
    case G => (Fixing, Routable)
  }

  /** The table of legal pairs, in the order the source lists them. */
  const ValidStates: seq<Pair> := [
    (Status.Processing, OriginatorBank),
    (Status.Processing, Routable),
    (Completed, DestinationBank),
    (Status.Error, Routable),
    (Refunding, Routable),
    (Refunded, OriginatorBank),
    (Fixing, Routable)
  ]

  /** The pairs a transaction may be created in. */
  const ValidStartStates: seq<Pair> := [
    (Status.Processing, OriginatorBank),
    (Refunding, Routable),
    (Fixing, Routable)
  ]

  /** `is_valid_state`: both values must be present and form a listed pair. */
  predicate IsValidState(status: Option<Status>, location: Option<Location>)
    ensures IsValidState(status, location) <==>
              && status.Some? && location.Some?
              && (status.value, location.value) in
                   {PairOf(A), PairOf(B), PairOf(C), PairOf(D), PairOf(E), PairOf(F), PairOf(G)}
  {
    status.Some? && location.Some? && (status.value, location.value) in ValidStates
  }

  /** `is_valid_start_state`: a valid state that is also a listed start pair. */
  predicate IsValidStartState(status: Option<Status>, location: Option<Location>)
    ensures IsValidStartState(status, location) <==>
              status.Some? && location.Some? && (status.value, location.value) in {PairOf(A), PairOf(E), PairOf(G)}
    ensures IsValidStartState(status, location) ==> IsValidState(status, location)
  {
    IsValidState(status, location) && (status.value, location.value) in ValidStartStates
  }

  predicate ValidPair(p: Pair) {
    IsValidState(Some(p.0), Some(p.1))
  }

  /** The statuses a transaction never moves out of. */
  predicate IsTerminal(s: Status) {
    s == Completed || s == Status.Error || s == Refunded
  }

  /** Names a pair by an independent match on status, then location. */
  function NameOf(p: Pair): (r: Option<StateName>)
    ensures r.Some? <==> ValidPair(p)
    ensures r.Some? ==> PairOf(r.value) == p
  {
    match p.0
    case Processing =>
      (match p.1
       case OriginatorBank => Some(A)
       case Routable => Some(B)
       case DestinationBank => None)
    case Completed => if p.1 == DestinationBank then Some(C) else None
    case Error => if p.1 == Routable then Some(D) else None
    case Refunding => if p.1 == Routable then Some(E) else None
    case Refunded => if p.1 == OriginatorBank then Some(F) else None
    case Fixing => if p.1 == Routable then Some(G) else None
  }

  /** Naming is a bijection between the seven names and the legal pairs. */
  lemma NameRoundTrip(n: StateName)
    ensures ValidPair(PairOf(n))
    ensures NameOf(PairOf(n)) == Some(n)
  {
  }

  /** Missing arguments are never a valid (start) state. */
  lemma MissingArgumentIsInvalid(status: Option<Status>, location: Option<Location>)
    requires status.None? || location.None?
    ensures !IsValidState(status, location) && !IsValidStartState(status, location)
  {
  }

  /** Exactly the named states A, E and G are start states, and every start
      state is a valid state. */
  lemma StartStatesAreAEG(s: Status, l: Location)
    ensures IsValidStartState(Some(s), Some(l)) <==> NameOf((s, l)) in {Some(A), Some(E), Some(G)}
    ensures IsValidStartState(Some(s), Some(l)) ==> IsValidState(Some(s), Some(l))
  {
  }
}
