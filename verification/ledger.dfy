/** The budget ledger: worst-case reservations before a call, one charge after it. */
module Ledger {
  import opened Budget
  import opened Options

  datatype Status = Success | Failure | Timeout | Refusal | Quota | Malformed | CancelledAfterCall

  /** A digest is opaque; equal digests stand for equal content. */
  datatype Digest = Receipt(serial: nat) | TextDigest(text: string)

  datatype Reservation = Reservation(reserved: Amounts, token: nat)

  datatype Event = Event(
    id: Id,
    status: Status,
    reserved: Amounts,
    charged: Amounts,
    receipt: Option<Digest>,
    overReserved: seq<Axis>,
    overCeiling: seq<Axis>)

  datatype Rejection = Rejection(id: Id, requested: Amounts, exceeded: seq<Axis>)

  datatype LedgerState = LedgerState(
    ceilings: Amounts,
    consumed: Amounts,
    reservations: map<Id, Reservation>,
    usedIds: set<Id>,
    events: seq<Event>,
    cancellations: seq<Id>,
    rejections: seq<Rejection>,
    breached: bool)

  datatype ReserveResult =
    | ReservationGranted
    | ReservationInvalid
    | ReservationIdUsed
    | LedgerBreached
    | ReservationRejected(exceeded: seq<Axis>)

  datatype CancelResult = Cancelled | CancelInactive | CancelBadToken

  datatype SettleResult =
    | SettledWithin(event: Event)
    | SettledBreach(over: Event)
    | ActualsInvalid
    | SettleInactive
    | SettleBadToken

  predicate ValidCeilings(ceilings: Amounts) {
    ceilings.InRange() && ceilings.calls > 0
  }

  function Opened(ceilings: Amounts): LedgerState {
    LedgerState(ceilings, ZERO, map[], {}, [], [], [], false)
  }

  /** The worst-case resources, on one axis, of the reservations that are still open. */
  ghost function ActiveAt(reservations: map<Id, Reservation>, axis: Axis): int
    decreases |reservations|
  {
    if reservations == map[] then 0
    else
      var id :| id in reservations;
      reservations[id].reserved.At(axis) + ActiveAt(reservations - {id}, axis)
  }

  ghost function Active(reservations: map<Id, Reservation>): (active: Amounts)
    ensures forall axis :: active.At(axis) == ActiveAt(reservations, axis)
  {
    Amounts(
      ActiveAt(reservations, Calls),
      ActiveAt(reservations, InputTokens),
      ActiveAt(reservations, OutputTokens),
      ActiveAt(reservations, MoneyMicrounits),
      ActiveAt(reservations, WallClockMs))
  }

  lemma {:induction false} ActiveRemove(reservations: map<Id, Reservation>, id: Id, axis: Axis)
    requires id in reservations
    ensures ActiveAt(reservations, axis)
      == reservations[id].reserved.At(axis) + ActiveAt(reservations - {id}, axis)
    decreases |reservations|
  {
    var first :| first in reservations && ActiveAt(reservations, axis)
      == reservations[first].reserved.At(axis) + ActiveAt(reservations - {first}, axis);
    if first != id {
      ActiveRemove(reservations - {first}, id, axis);
      ActiveRemove(reservations - {id}, first, axis);
      assert reservations - {first} - {id} == reservations - {id} - {first};
    }
  }

  lemma ActiveAdd(reservations: map<Id, Reservation>, id: Id, reservation: Reservation, axis: Axis)
    requires id !in reservations
    ensures ActiveAt(reservations[id := reservation], axis)
      == ActiveAt(reservations, axis) + reservation.reserved.At(axis)
  {
    ActiveRemove(reservations[id := reservation], id, axis);
    assert reservations[id := reservation] - {id} == reservations;
  }

  lemma {:induction false} ActiveNonNegative(reservations: map<Id, Reservation>, axis: Axis)
    requires forall id :: id in reservations ==> reservations[id].reserved.InRange()
    ensures 0 <= ActiveAt(reservations, axis)
    decreases |reservations|
  {
    if reservations != map[] {
      var id :| id in reservations && ActiveAt(reservations, axis)
        == reservations[id].reserved.At(axis) + ActiveAt(reservations - {id}, axis);
      ActiveNonNegative(reservations - {id}, axis);
      OnEveryAxis(ZERO, reservations[id].reserved);
    }
  }

  // Reserve, cancel and settle, each as one atomic step on the ledger's state.

  ghost function ReserveAnswer(s: LedgerState, id: Id, maximums: Amounts): ReserveResult {
    if !maximums.OneCall() then ReservationInvalid
    else if id in s.usedIds then ReservationIdUsed
    else if s.breached then LedgerBreached
    else
      var exceeded := OverAxes(s.consumed.Plus(Active(s.reservations)).Plus(maximums), s.ceilings);
      if exceeded != [] then ReservationRejected(exceeded) else ReservationGranted
  }

  /** A rejected reservation breaches the ledger and uses up its id. */
  ghost function AfterReserve(s: LedgerState, id: Id, maximums: Amounts, token: nat): LedgerState {
    match ReserveAnswer(s, id, maximums)
    case ReservationGranted =>
      s.(usedIds := s.usedIds + {id}, reservations := s.reservations[id := Reservation(maximums, token)])
    case ReservationRejected(exceeded) =>
      s.(usedIds := s.usedIds + {id}, breached := true,
         rejections := s.rejections + [Rejection(id, maximums, exceeded)])
    case _ => s
  }

  function CancelAnswer(s: LedgerState, id: Id, token: nat): CancelResult {
    if id !in s.reservations then CancelInactive
    else if s.reservations[id].token != token then CancelBadToken
    else Cancelled
  }

  function AfterCancel(s: LedgerState, id: Id, token: nat): LedgerState {
    if CancelAnswer(s, id, token).Cancelled? then
      s.(reservations := s.reservations - {id}, cancellations := s.cancellations + [id])
    else s
  }

  function EventFor(
    s: LedgerState, id: Id, actuals: Amounts, status: Status, receipt: Option<Digest>): Event
    requires id in s.reservations
  {
    var reserved := s.reservations[id].reserved;
    Event(id, status, reserved, actuals, receipt,
          OverAxes(actuals, reserved), OverAxes(s.consumed.Plus(actuals), s.ceilings))
  }

  predicate OverBudget(event: Event) {
    event.overReserved != [] || event.overCeiling != []
  }

  function SettleAnswer(
    s: LedgerState, id: Id, actuals: Amounts, status: Status, receipt: Option<Digest>, token: nat): SettleResult
  {
    if !actuals.OneCall() then ActualsInvalid
    else if id !in s.reservations then SettleInactive
    else if s.reservations[id].token != token then SettleBadToken
    else
      var event := EventFor(s, id, actuals, status, receipt);
      if OverBudget(event) then SettledBreach(event) else SettledWithin(event)
  }

  /** The attempt is charged and recorded even when the charge breaches the ledger. */
  function AfterSettle(
    s: LedgerState, id: Id, actuals: Amounts, status: Status, receipt: Option<Digest>, token: nat): LedgerState
  {
    match SettleAnswer(s, id, actuals, status, receipt, token)
    case SettledWithin(event) => Charge(s, event)
    case SettledBreach(event) => Charge(s, event).(breached := true)
    case _ => s
  }

  function Charge(s: LedgerState, event: Event): LedgerState {
    s.(reservations := s.reservations - {event.id},
       consumed := s.consumed.Plus(event.charged),
       events := s.events + [event])
  }

  // What holds in every reachable ledger state.

  function Charged(events: seq<Event>, axis: Axis): seq<int> {
    seq(|events|, i requires 0 <= i < |events| => events[i].charged.At(axis))
  }

  /** How far each attempt overran its own reservation. */
  function Overruns(events: seq<Event>, axis: Axis): seq<int> {
    seq(|events|, i requires 0 <= i < |events| =>
      Positive(events[i].charged.At(axis) - events[i].reserved.At(axis)))
  }

  function EventIds(events: seq<Event>): set<Id> {
    set event | event in events :: event.id
  }

  function RejectedIds(rejections: seq<Rejection>): set<Id> {
    set rejection | rejection in rejections :: rejection.id
  }

  function Elements(ids: seq<Id>): set<Id> {
    set id | id in ids
  }

  /** Every used id is active, settled, cancelled or rejected, in exactly one way and exactly once. */
  ghost predicate IdsPartitioned(s: LedgerState) {
    var active, settled := s.reservations.Keys, EventIds(s.events);
    var cancelled, rejected := Elements(s.cancellations), RejectedIds(s.rejections);
    && s.usedIds == active + settled + cancelled + rejected
    && active !! settled !! cancelled !! rejected
    && (forall i, j :: 0 <= i < j < |s.events| ==> s.events[i].id != s.events[j].id)
    && (forall i, j :: 0 <= i < j < |s.cancellations| ==> s.cancellations[i] != s.cancellations[j])
    && |s.rejections| <= 1
  }

  /** Consumption is the sum of the charges and, with the open reservations, exceeds the ceilings
      by no more than the attempts have overrun their own reservations. */
  ghost predicate Accounted(s: LedgerState) {
    forall axis: Axis ::
      && s.consumed.At(axis) == Total(Charged(s.events, axis))
      && s.consumed.At(axis) + ActiveAt(s.reservations, axis)
         <= s.ceilings.At(axis) + Total(Overruns(s.events, axis))
  }

  /** The ledger is breached exactly when it recorded a rejection or an attempt over budget. */
  ghost predicate BreachExplained(s: LedgerState) {
    && (s.breached <==> s.rejections != [] || exists event :: event in s.events && OverBudget(event))
    && (forall event :: event in s.events ==>
          (event.overReserved == [] <==> event.charged.Leq(event.reserved)))
    && ((forall event :: event in s.events ==> event.overReserved == []) ==>
          (forall event :: event in s.events ==> event.overCeiling == []))
  }

  ghost predicate AmountsValid(s: LedgerState) {
    && ValidCeilings(s.ceilings)
    && (forall id :: id in s.reservations ==> s.reservations[id].reserved.OneCall())
    && (forall event :: event in s.events ==> event.reserved.OneCall() && event.charged.OneCall())
  }

  ghost predicate Invariant(s: LedgerState) {
    IdsPartitioned(s) && Accounted(s) && BreachExplained(s) && AmountsValid(s)
  }

  lemma ChargedAppend(events: seq<Event>, event: Event, axis: Axis)
    ensures Total(Charged(events + [event], axis)) == Total(Charged(events, axis)) + event.charged.At(axis)
    ensures Total(Overruns(events + [event], axis))
      == Total(Overruns(events, axis)) + Positive(event.charged.At(axis) - event.reserved.At(axis))
  {
    var overrun := Positive(event.charged.At(axis) - event.reserved.At(axis));
    assert Charged(events + [event], axis) == Charged(events, axis) + [event.charged.At(axis)];
    assert Overruns(events + [event], axis) == Overruns(events, axis) + [overrun];
    TotalAppend(Charged(events, axis), event.charged.At(axis));
    TotalAppend(Overruns(events, axis), overrun);
  }

  lemma GrantKeepsIds(s: LedgerState, id: Id, maximums: Amounts, token: nat)
    requires IdsPartitioned(s) && ReserveAnswer(s, id, maximums).ReservationGranted?
    ensures IdsPartitioned(AfterReserve(s, id, maximums, token))
  {
    assert AfterReserve(s, id, maximums, token).reservations.Keys == s.reservations.Keys + {id};
    hide EventIds, RejectedIds, Elements, ActiveAt;
  }

  lemma RejectKeepsIds(s: LedgerState, id: Id, maximums: Amounts, token: nat)
    requires IdsPartitioned(s) && BreachExplained(s) && ReserveAnswer(s, id, maximums).ReservationRejected?
    ensures IdsPartitioned(AfterReserve(s, id, maximums, token))
  {
    hide EventIds, Elements, ActiveAt;
    var t := AfterReserve(s, id, maximums, token);
    assert s.rejections == [];
    assert t.rejections[0].id == id && RejectedIds(t.rejections) == {id};
  }

  lemma RejectKeepsAccounts(s: LedgerState, id: Id, maximums: Amounts, token: nat)
    requires Accounted(s) && ReserveAnswer(s, id, maximums).ReservationRejected?
    ensures Accounted(AfterReserve(s, id, maximums, token))
  {
    hide ActiveAt, Active;
  }

  lemma GrantFits(s: LedgerState, id: Id, maximums: Amounts, axis: Axis)
    requires ReserveAnswer(s, id, maximums).ReservationGranted?
    ensures s.consumed.At(axis) + ActiveAt(s.reservations, axis) + maximums.At(axis) <= s.ceilings.At(axis)
  {
    hide ActiveAt;
    var wanted := s.consumed.Plus(Active(s.reservations)).Plus(maximums);
    OnEveryAxis(wanted, s.ceilings);
    assert wanted.At(axis) == s.consumed.At(axis) + Active(s.reservations).At(axis) + maximums.At(axis);
  }

  lemma GrantKeepsAxis(s: LedgerState, id: Id, maximums: Amounts, token: nat, axis: Axis)
    requires Accounted(s) && id !in s.reservations && ReserveAnswer(s, id, maximums).ReservationGranted?
    ensures s.consumed.At(axis) + ActiveAt(s.reservations[id := Reservation(maximums, token)], axis)
      <= s.ceilings.At(axis) + Total(Overruns(s.events, axis))
  {
    GrantFits(s, id, maximums, axis);
    TotalNonNegative(Overruns(s.events, axis));
    ActiveAdd(s.reservations, id, Reservation(maximums, token), axis);
    hide ReserveAnswer, ActiveAt, Amounts.At, Accounted;
  }

  lemma GrantKeepsAccounts(s: LedgerState, id: Id, maximums: Amounts, token: nat)
    requires Accounted(s) && s.reservations.Keys <= s.usedIds
    requires ReserveAnswer(s, id, maximums).ReservationGranted?
    ensures Accounted(AfterReserve(s, id, maximums, token))
  {
    assert id !in s.reservations;
    hide OverAxes, Active, ActiveAt, Amounts.At, Amounts.OneCall;
    forall axis: Axis {
      GrantKeepsAxis(s, id, maximums, token, axis);
    }
  }

  lemma ReserveKeepsBreach(s: LedgerState, id: Id, maximums: Amounts, token: nat)
    requires BreachExplained(s) && AmountsValid(s)
    ensures BreachExplained(AfterReserve(s, id, maximums, token)) && AmountsValid(AfterReserve(s, id, maximums, token))
  {
    hide Active, OverBudget, OverAxes, ValidCeilings, Amounts.OneCall, Amounts.Leq;
    match ReserveAnswer(s, id, maximums)
    case ReservationRejected(exceeded) => assert AfterReserve(s, id, maximums, token).rejections != [];
    case _ =>
  }

  lemma ReserveKeepsInvariant(s: LedgerState, id: Id, maximums: Amounts, token: nat)
    requires Invariant(s)
    ensures Invariant(AfterReserve(s, id, maximums, token))
  {
    assert s.reservations.Keys <= s.usedIds;
    var t := AfterReserve(s, id, maximums, token);
    ReserveKeepsBreach(s, id, maximums, token);
    hide IdsPartitioned, Accounted, BreachExplained, AmountsValid, Active;
    match ReserveAnswer(s, id, maximums) {
      case ReservationGranted =>
        GrantKeepsIds(s, id, maximums, token);
        GrantKeepsAccounts(s, id, maximums, token);
      case ReservationRejected(_) =>
        RejectKeepsIds(s, id, maximums, token);
        assert Accounted(t) by { RejectKeepsAccounts(s, id, maximums, token); }
      case _ =>
    }
  }

  lemma CancelKeepsInvariant(s: LedgerState, id: Id, token: nat)
    requires Invariant(s)
    ensures Invariant(AfterCancel(s, id, token))
  {
    var t := AfterCancel(s, id, token);
    if CancelAnswer(s, id, token).Cancelled? {
      forall axis: Axis ensures ActiveAt(t.reservations, axis) <= ActiveAt(s.reservations, axis) {
        ActiveRemove(s.reservations, id, axis);
      }
      assert Elements(t.cancellations) == Elements(s.cancellations) + {id};
    }
  }

  lemma ChargeKeepsIds(s: LedgerState, event: Event)
    requires IdsPartitioned(s) && event.id in s.reservations
    ensures IdsPartitioned(Charge(s, event))
    ensures EventIds(Charge(s, event).events) == EventIds(s.events) + {event.id}
  {
    var t := Charge(s, event);
    assert t.events[|s.events|] == event;
    forall id ensures id in EventIds(t.events) <==> id in EventIds(s.events) + {event.id} {
      if id in EventIds(s.events) {
        var e :| e in s.events && e.id == id;
        assert e in t.events;
      }
    }
    forall i, j | 0 <= i < j < |t.events| ensures t.events[i].id != t.events[j].id {
      assert s.events[i] in s.events;
    }
  }

  /** Without an overrun of any single reservation, consumption stays under the ceilings. */
  lemma NoOverrunWithinCeilings(s: LedgerState, axis: Axis)
    requires Accounted(s)
    requires forall event :: event in s.events ==> event.charged.Leq(event.reserved)
    ensures s.consumed.At(axis) + ActiveAt(s.reservations, axis) <= s.ceilings.At(axis)
  {
    forall i | 0 <= i < |s.events| ensures Overruns(s.events, axis)[i] == 0 {
      assert s.events[i] in s.events;
      OnEveryAxis(s.events[i].charged, s.events[i].reserved);
    }
    TotalZero(Overruns(s.events, axis));
  }

  lemma ChargeKeepsAccounts(s: LedgerState, event: Event)
    requires Accounted(s)
    requires event.id in s.reservations && event.reserved == s.reservations[event.id].reserved
    ensures Accounted(Charge(s, event))
  {
    forall axis: Axis ensures
      var t := Charge(s, event);
      && t.consumed.At(axis) == Total(Charged(t.events, axis))
      && t.consumed.At(axis) + ActiveAt(t.reservations, axis)
         <= t.ceilings.At(axis) + Total(Overruns(t.events, axis))
    {
      ActiveRemove(s.reservations, event.id, axis);
      ChargedAppend(s.events, event, axis);
    }
  }

  lemma ChargeKeepsBreachExplained(s: LedgerState, event: Event)
    requires BreachExplained(s) && AmountsValid(s)
    requires event.overReserved == OverAxes(event.charged, event.reserved)
    requires event.overCeiling == OverAxes(s.consumed.Plus(event.charged), s.ceilings)
    requires Accounted(Charge(s, event)) && AmountsValid(Charge(s, event))
    ensures BreachExplained(Charge(s, event).(breached := s.breached || OverBudget(event)))
  {
    var t := Charge(s, event);
    assert t.events[|s.events|] == event;
    assert forall e :: e in t.events <==> e in s.events || e == event;
    if forall e :: e in t.events ==> e.overReserved == [] {
      forall axis: Axis ensures t.consumed.At(axis) <= t.ceilings.At(axis) {
        NoOverrunWithinCeilings(t, axis);
        ActiveNonNegative(t.reservations, axis);
      }
      OnEveryAxis(t.consumed, t.ceilings);
    }
  }

  lemma SettleKeepsInvariant(
    s: LedgerState, id: Id, actuals: Amounts, status: Status, receipt: Option<Digest>, token: nat)
    requires Invariant(s)
    ensures Invariant(AfterSettle(s, id, actuals, status, receipt, token))
  {
    var answer := SettleAnswer(s, id, actuals, status, receipt, token);
    if answer.SettledWithin? || answer.SettledBreach? {
      var event := EventFor(s, id, actuals, status, receipt);
      ChargeKeepsIds(s, event);
      ChargeKeepsAccounts(s, event);
      ChargeKeepsBreachExplained(s, event);
    }
  }

  // Runs of the ledger.

  datatype Operation =
    | Reserve(id: Id, maximums: Amounts, token: nat)
    | Cancel(id: Id, token: nat)
    | Settle(id: Id, actuals: Amounts, status: Status, receipt: Option<Digest>, token: nat)

  ghost function Apply(s: LedgerState, op: Operation): LedgerState {
    match op
    case Reserve(id, maximums, token) => AfterReserve(s, id, maximums, token)
    case Cancel(id, token) => AfterCancel(s, id, token)
    case Settle(id, actuals, status, receipt, token) => AfterSettle(s, id, actuals, status, receipt, token)
  }

  ghost function RunOperations(s: LedgerState, ops: seq<Operation>): LedgerState {
    if ops == [] then s else Apply(RunOperations(s, ops[..|ops| - 1]), ops[|ops| - 1])
  }

  lemma ApplyKeepsInvariant(s: LedgerState, op: Operation)
    requires Invariant(s)
    ensures Invariant(Apply(s, op))
  {
    match op
    case Reserve(id, maximums, token) => ReserveKeepsInvariant(s, id, maximums, token);
    case Cancel(id, token) => CancelKeepsInvariant(s, id, token);
    case Settle(id, actuals, status, receipt, token) =>
      SettleKeepsInvariant(s, id, actuals, status, receipt, token);
  }

  lemma {:induction false} EveryRunKeepsInvariant(ceilings: Amounts, ops: seq<Operation>)
    requires ValidCeilings(ceilings)
    ensures Invariant(RunOperations(Opened(ceilings), ops))
  {
    if ops != [] {
      EveryRunKeepsInvariant(ceilings, ops[..|ops| - 1]);
      ApplyKeepsInvariant(RunOperations(Opened(ceilings), ops[..|ops| - 1]), ops[|ops| - 1]);
    }
  }

  /** A reservation is granted exactly for one call under a new id, in a ledger without a breach, whose consumption
      and open reservations leave room on every axis; otherwise the axes without room are the ones reported. */
  lemma GrantExactly(s: LedgerState, id: Id, maximums: Amounts)
    ensures ReserveAnswer(s, id, maximums).ReservationGranted? <==>
      && maximums.OneCall() && id !in s.usedIds && !s.breached
      && forall axis: Axis ::
           s.consumed.At(axis) + ActiveAt(s.reservations, axis) + maximums.At(axis) <= s.ceilings.At(axis)
    ensures match ReserveAnswer(s, id, maximums)
      case ReservationInvalid => !maximums.OneCall()
      case ReservationIdUsed => maximums.OneCall() && id in s.usedIds
      case LedgerBreached => maximums.OneCall() && id !in s.usedIds && s.breached
      case ReservationRejected(exceeded) => !s.breached && exceeded != [] && forall axis: Axis :: axis in exceeded <==>
        s.consumed.At(axis) + ActiveAt(s.reservations, axis) + maximums.At(axis) > s.ceilings.At(axis)
      case _ => true
  {
    var wanted := s.consumed.Plus(Active(s.reservations)).Plus(maximums);
    OnEveryAxis(wanted, s.ceilings);
    hide ActiveAt, Active, OverAxes, ValidCeilings;
    forall axis: Axis
      ensures wanted.At(axis) == s.consumed.At(axis) + ActiveAt(s.reservations, axis) + maximums.At(axis)
    {
      assert wanted.At(axis) == s.consumed.At(axis) + Active(s.reservations).At(axis) + maximums.At(axis);
    }
  }

  /** The operation ends this reservation if it names its id and holds its token. */
  predicate Ends(op: Operation, id: Id, token: nat) {
    match op
    case Reserve(_, _, _) => false
    case Cancel(other, held) => other == id && held == token
    case Settle(other, actuals, _, _, held) => other == id && held == token && actuals.OneCall()
  }

  lemma OutlivesOne(s: LedgerState, id: Id, maximums: Amounts, token: nat, op: Operation)
    requires id in s.usedIds && id in s.reservations && s.reservations[id] == Reservation(maximums, token)
    requires !Ends(op, id, token)
    ensures var t := Apply(s, op);
      id in t.usedIds && id in t.reservations && t.reservations[id] == Reservation(maximums, token)
  {
    hide OverAxes, Active;
  }

  /** Nobody without the token ends or changes a reservation, whatever they do to the ledger. */
  lemma {:induction false} ReservationOutlives(
    s: LedgerState, id: Id, maximums: Amounts, token: nat, ops: seq<Operation>)
    requires s.reservations.Keys <= s.usedIds && ReserveAnswer(s, id, maximums).ReservationGranted?
    requires forall op :: op in ops ==> !Ends(op, id, token)
    ensures var t := RunOperations(AfterReserve(s, id, maximums, token), ops);
      id in t.usedIds && id in t.reservations && t.reservations[id] == Reservation(maximums, token)
  {
    if ops != [] {
      var before, last := ops[..|ops| - 1], ops[|ops| - 1];
      ReservationOutlives(s, id, maximums, token, before);
      assert last in ops;
      hide RunOperations, AfterReserve, OverAxes, Active;
      OutlivesOne(RunOperations(AfterReserve(s, id, maximums, token), before), id, maximums, token, last);
    }
  }

  /** The token of a reservation cancels it without any charge, and any other token does nothing. */
  lemma OnlyItsTokenCancels(s: LedgerState, id: Id, token: nat)
    requires id in s.reservations
    ensures AfterCancel(s, id, token) == if token != s.reservations[id].token then s
      else s.(reservations := s.reservations - {id}, cancellations := s.cancellations + [id])
  {
  }

  /** Reserving and cancelling with the same token leaves every amount as it was. */
  lemma CancelUndoesReserve(s: LedgerState, id: Id, maximums: Amounts, token: nat)
    requires s.reservations.Keys <= s.usedIds && ReserveAnswer(s, id, maximums).ReservationGranted?
    ensures AfterCancel(AfterReserve(s, id, maximums, token), id, token)
      == s.(usedIds := s.usedIds + {id}, cancellations := s.cancellations + [id])
    ensures forall other: nat :: other != token ==>
      AfterCancel(AfterReserve(s, id, maximums, token), id, other) == AfterReserve(s, id, maximums, token)
  {
    assert s.reservations[id := Reservation(maximums, token)] - {id} == s.reservations;
    hide ReserveAnswer;
  }

  /** The event states the charge next to what was reserved, and lists exactly the axes that overrun. */
  ghost predicate Charges(
    s: LedgerState, t: LedgerState, id: Id, maximums: Amounts, actuals: Amounts, status: Status, receipt: Option<Digest>)
  {
    && t.ceilings == s.ceilings && t.reservations == s.reservations - {id} && |t.events| == |s.events| + 1
    && var event := t.events[|s.events|];
    && t.events == s.events + [event]
    && (event.id, event.status, event.receipt) == (id, status, receipt)
    && (event.reserved, event.charged) == (maximums, actuals)
    && (forall axis: Axis :: t.consumed.At(axis) == s.consumed.At(axis) + actuals.At(axis))
    && (forall axis: Axis :: axis in event.overReserved <==> actuals.At(axis) > maximums.At(axis))
    && (forall axis: Axis :: axis in event.overCeiling <==> t.consumed.At(axis) > s.ceilings.At(axis))
    && (t.breached <==> s.breached || exists axis: Axis :: axis in event.overReserved || axis in event.overCeiling)
  }

  lemma OnlyItsTokenSettles(
    s: LedgerState, id: Id, token: nat, actuals: Amounts, status: Status, receipt: Option<Digest>)
    requires id in s.reservations && actuals.OneCall()
    ensures var t := AfterSettle(s, id, actuals, status, receipt, token);
      if token != s.reservations[id].token then t == s
      else Charges(s, t, id, s.reservations[id].reserved, actuals, status, receipt)
  {
    if token == s.reservations[id].token {
      var event := EventFor(s, id, actuals, status, receipt);
      assert AfterSettle(s, id, actuals, status, receipt, token)
        == Charge(s, event).(breached := s.breached || OverBudget(event));
      ChargeTells(s, event);
    }
    hide AfterSettle, SettleAnswer, Charge, OverAxes, Amounts.Plus, Amounts.At;
  }

  lemma ChargeTells(s: LedgerState, event: Event)
    requires event.id in s.reservations
    requires event.overReserved == OverAxes(event.charged, event.reserved)
    requires event.overCeiling == OverAxes(s.consumed.Plus(event.charged), s.ceilings)
    ensures Charges(
      s, Charge(s, event).(breached := s.breached || OverBudget(event)), event.id, event.reserved, event.charged,
      event.status, event.receipt)
  {
    PlusEverywhere(s.consumed, event.charged);
    AxesTell(event.overReserved);
    AxesTell(event.overCeiling);
    assert (s.events + [event])[|s.events|] == event;
    hide OverAxes, Amounts.Plus, Amounts.At, Amounts.Leq;
  }

  lemma PlusEverywhere(a: Amounts, b: Amounts)
    ensures forall axis: Axis :: a.Plus(b).At(axis) == a.At(axis) + b.At(axis)
  {
  }

  lemma AxesTell(axes: seq<Axis>)
    ensures axes != [] <==> exists axis: Axis :: axis in axes
  {
    if axes != [] {
      assert axes[0] in axes;
    }
  }

  /** What a breach freezes: `t` grew out of the breached `s` only by ending open reservations. */
  ghost predicate GrewOnlyByEnding(s: LedgerState, t: LedgerState) {
    && t.breached
    && t.usedIds == s.usedIds
    && t.rejections == s.rejections
    && t.reservations.Keys <= s.reservations.Keys
    && s.events <= t.events
    && (forall i :: |s.events| <= i < |t.events| ==> t.events[i].id in s.reservations)
  }

  /** A breach is permanent, nothing is reserved after it, and every later event settles a
      reservation that was open at the time of the breach. */
  lemma {:induction false} BreachIsPermanent(s: LedgerState, ops: seq<Operation>)
    requires s.breached
    ensures GrewOnlyByEnding(s, RunOperations(s, ops))
  {
    if ops != [] {
      BreachIsPermanent(s, ops[..|ops| - 1]);
    }
  }

  /** The ledger object. Its lock makes each method one atomic step. */
  class BudgetLedger {
    const ceilings: Amounts
    var consumed: Amounts
    var reservations: map<Id, Reservation>
    var usedIds: set<Id>
    var events: seq<Event>
    var preCallCancellations: seq<Id>
    var rejections: seq<Rejection>
    var breached: bool

    ghost function State(): LedgerState
      reads this
    {
      LedgerState(ceilings, consumed, reservations, usedIds, events, preCallCancellations, rejections, breached)
    }

    constructor (ceilings: Amounts)
      ensures State() == Opened(ceilings)
    {
      this.ceilings := ceilings;
      consumed, reservations, usedIds := ZERO, map[], {};
      events, preCallCancellations, rejections, breached := [], [], [], false;
    }

    /** Opens a ledger, or reports that the ceilings are malformed or allow no call. */
    static method Open(ceilings: Amounts) returns (ledger: BudgetLedger?)
      ensures ledger != null <==> ValidCeilings(ceilings)
      ensures ledger != null ==>
        fresh(ledger) && ledger.State() == Opened(ceilings) && Invariant(ledger.State())
    {
      if ceilings.InRange() && ceilings.calls != 0 {
        ledger := new BudgetLedger(ceilings);
        EveryRunKeepsInvariant(ceilings, []);
      } else {
        ledger := null;
      }
    }

    method SumReservations() returns (active: Amounts)
      ensures active == Active(reservations)
    {
      active := ZERO;
      var rest := reservations;
      while rest != map[]
        invariant forall axis :: active.At(axis) + ActiveAt(rest, axis) == ActiveAt(reservations, axis)
        decreases |rest|
      {
        var id :| id in rest;
        forall axis: Axis {
          ActiveRemove(rest, id, axis);
        }
        active := active.Plus(rest[id].reserved);
        rest := rest - {id};
      }
      OnEveryAxis(active, Active(reservations));
    }

    method Reserve(id: Id, maximums: Amounts, token: nat) returns (result: ReserveResult)
      requires Invariant(State())
      modifies this
      ensures result == ReserveAnswer(old(State()), id, maximums)
      ensures State() == AfterReserve(old(State()), id, maximums, token)
      ensures Invariant(State())
    {
      hide Invariant, ActiveAt;
      if !maximums.OneCall() {
        result := ReservationInvalid;
      } else if id in usedIds {
        result := ReservationIdUsed;
      } else if breached {
        result := LedgerBreached;
      } else {
        var active := SumReservations();
        var exceeded := OverAxes(consumed.Plus(active).Plus(maximums), ceilings);
        usedIds := usedIds + {id};
        if exceeded != [] {
          breached := true;
          rejections := rejections + [Rejection(id, maximums, exceeded)];
          result := ReservationRejected(exceeded);
        } else {
          reservations := reservations[id := Reservation(maximums, token)];
          result := ReservationGranted;
        }
      }
      assert State() == AfterReserve(old(State()), id, maximums, token);
      ReserveKeepsInvariant(old(State()), id, maximums, token);
    }

    method CancelBeforeCall(id: Id, token: nat) returns (result: CancelResult)
      requires Invariant(State())
      modifies this
      ensures result == CancelAnswer(old(State()), id, token)
      ensures State() == AfterCancel(old(State()), id, token)
      ensures Invariant(State())
    {
      hide Invariant, ActiveAt;
      CancelKeepsInvariant(State(), id, token);
      if id !in reservations {
        return CancelInactive;
      }
      if reservations[id].token != token {
        return CancelBadToken;
      }
      reservations := reservations - {id};
      preCallCancellations := preCallCancellations + [id];
      return Cancelled;
    }

    method Settle(id: Id, actuals: Amounts, status: Status, receipt: Option<Digest>, token: nat)
      returns (result: SettleResult)
      requires Invariant(State())
      modifies this
      ensures result == SettleAnswer(old(State()), id, actuals, status, receipt, token)
      ensures State() == AfterSettle(old(State()), id, actuals, status, receipt, token)
      ensures Invariant(State())
    {
      hide Invariant, ActiveAt;
      SettleKeepsInvariant(State(), id, actuals, status, receipt, token);
      if !actuals.OneCall() {
        return ActualsInvalid;
      }
      if id !in reservations {
        return SettleInactive;
      }
      if reservations[id].token != token {
        return SettleBadToken;
      }
      var reserved := reservations[id].reserved;
      reservations := reservations - {id};
      consumed := consumed.Plus(actuals);
      var overReserved := OverAxes(actuals, reserved);
      var overCeiling := OverAxes(consumed, ceilings);
      var event := Event(id, status, reserved, actuals, receipt, overReserved, overCeiling);
      events := events + [event];
      if overReserved != [] || overCeiling != [] {
        breached := true;
        return SettledBreach(event);
      }
      return SettledWithin(event);
    }
  }
}
