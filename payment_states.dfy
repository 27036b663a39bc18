/**
 * The lifecycle of a coin payment: six states, five events, the transition
 * table, and the notification each transition fires.
 */
module PaymentStates {
  import opened Wrappers

  datatype State = Pending | PartialPayment | PaidInFull | Confirmed | Comped | Expired

  datatype Event = Pay | PartiallyPay | Comp | Confirm | Expire

  /** The `notify_payable_*` hook that runs after a transition. */
  datatype Notice = NotifyPaid | NotifyPartiallyPaid | NotifyConfirmed | NotifyExpired

  datatype Transition = Transition(target: State, notice: Notice)

  predicate IsTerminal(s: State) {
    s == Confirmed || s == Comped || s == Expired
  }

  /** The `unconfirmed` scope: the states the reconciliation batch visits. */
  predicate Unconfirmed(s: State) {
    s == Pending || s == PartialPayment || s == PaidInFull
  }

  /** How far along the lifecycle a state is. */
  function Rank(s: State): nat {
    match s
    case Pending => 0
    case PartialPayment => 1
    case PaidInFull => 2
    case Confirmed => 3
    case Comped => 3
    case Expired => 3
  }

  /** The `after_transition on:` hooks, by event. */
  function NoticeFor(e: Event): Notice {
    match e
    case Pay => NotifyPaid
    case Comp => NotifyPaid
    case PartiallyPay => NotifyPartiallyPaid
    case Confirm => NotifyConfirmed
    case Expire => NotifyExpired
  }

  /**
   * Firing event e in state s: the transition table with the hook each
   * transition runs; None is a rejected event, which changes nothing and
   * notifies no one. Terminal states have no way out, every transition moves
   * strictly forward, and each runs exactly the hook of its event.
   */
  function Step(s: State, e: Event): (r: Option<Transition>)
    ensures r.Some? ==> !IsTerminal(s)
    ensures r.Some? ==> Rank(r.value.target) > Rank(s)
    ensures r.Some? ==> r.value.notice == NoticeFor(e)
    ensures r.Some? && r.value.target == Confirmed ==> s == PaidInFull && e == Confirm
    ensures r.Some? && r.value.target == Expired ==> s == Pending && e == Expire
  {
    match e
    case Pay =>
      if s == Pending || s == PartialPayment then Some(Transition(PaidInFull, NotifyPaid)) else None
    case PartiallyPay =>
      if s == Pending then Some(Transition(PartialPayment, NotifyPartiallyPaid)) else None
    case Comp =>
      if s == Pending || s == PartialPayment then Some(Transition(Comped, NotifyPaid)) else None
    case Confirm =>
      if s == PaidInFull then Some(Transition(Confirmed, NotifyConfirmed)) else None
    case Expire =>
      if s == Pending then Some(Transition(Expired, NotifyExpired)) else None
  }

  /** The state after firing e: the target, or s unchanged when e is rejected. */
  function Next(s: State, e: Event): State {
    match Step(s, e)
    case Some(t) => t.target
    case None => s
  }

  /** `pay` and `comp` succeed exactly from pending and partial_payment. */
  lemma PayAndCompSources(s: State)
    ensures Step(s, Pay).Some? <==> s == Pending || s == PartialPayment
    ensures Step(s, Comp).Some? <==> s == Pending || s == PartialPayment
    ensures Step(s, Pay).Some? ==> Step(s, Pay).value.target == PaidInFull
    ensures Step(s, Comp).Some? ==> Step(s, Comp).value.target == Comped
  {
  }

  /** `partially_pay`, `confirm` and `expire` each have a single source state. */
  lemma SingleSourceEvents(s: State)
    ensures Step(s, PartiallyPay).Some? <==> s == Pending
    ensures Step(s, Confirm).Some? <==> s == PaidInFull
    ensures Step(s, Expire).Some? <==> s == Pending
  {
  }

  /** No event leaves a terminal state; every other state can leave by some event. */
  lemma TerminalIsSink(s: State)
    ensures IsTerminal(s) <==> forall e: Event :: Step(s, e).None?
  {
    if !IsTerminal(s) {
      assert Step(s, if s == PaidInFull then Confirm else Comp).Some?;
    }
  }

  /** The batch visits exactly the states that can still change. */
  lemma UnconfirmedIsNotTerminal(s: State)
    ensures Unconfirmed(s) <==> !IsTerminal(s)
  {
  }

  /** A run of events: the final state and the hooks run, in order. */
  function Run(s: State, es: seq<Event>): (r: (State, seq<Notice>))
    ensures Rank(r.0) >= Rank(s)
    ensures |r.1| <= |es|
    ensures IsTerminal(s) ==> r == (s, [])
    ensures r.0 == s <==> r.1 == []
    decreases |es|
  {
    if |es| == 0 then (s, [])
    else match Step(s, es[0])
      case None => Run(s, es[1..])
      case Some(t) =>
        var rest := Run(t.target, es[1..]);
        (rest.0, [t.notice] + rest.1)
  }
}
