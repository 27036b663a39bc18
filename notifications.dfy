/**
 * The notification dispatcher: after a transition the payable is told, by
 * the event-specific hook and by the generic one, each only if the payable
 * has it.
 */
module Notifications {
  import opened PaymentStates

  /** The host's billing object, seen only as the methods it responds to. */
  datatype Payable = Payable(methods: set<string>)

  /** One call made on the payable. */
  datatype Call =
    | Specific(methodName: string)   // the event's own hook, given the payment
    | Generic(eventName: string)     // the generic hook, given the payment and the event name

  /** The event name `notify_payable_event` is called with. */
  function EventName(n: Notice): string {
    match n
    case NotifyPaid => "paid"
    case NotifyPartiallyPaid => "partially_paid"
    case NotifyConfirmed => "confirmed"
    case NotifyExpired => "expired"
  }

  function HookName(n: Notice): string {
    "coin_payment_" + EventName(n)
  }

  const GenericHook: string := "coin_payment_event"

  /**
   * `notify_payable_event`: the specific hook is called exactly when the
   * payable has it, then the generic one exactly when the payable has that;
   * the two are independent, and a payable with neither gets no call and no
   * error.
   */
  function Dispatch(p: Payable, n: Notice): (calls: seq<Call>)
    ensures Specific(HookName(n)) in calls <==> HookName(n) in p.methods
    ensures Generic(EventName(n)) in calls <==> GenericHook in p.methods
    ensures forall c :: c in calls ==> c == Specific(HookName(n)) || c == Generic(EventName(n))
    ensures |calls| <= 2
    ensures |calls| == 2 ==> calls[0].Specific? && calls[1].Generic?
  {
    (if HookName(n) in p.methods then [Specific(HookName(n))] else []) +
    (if GenericHook in p.methods then [Generic(EventName(n))] else [])
  }

  /** Different notifications call different specific hooks, none of them the generic one. */
  lemma HookNamesDistinct(n: Notice, m: Notice)
    ensures n != m ==> HookName(n) != HookName(m)
    ensures HookName(n) != GenericHook
  {
    var p := "coin_payment_";
    assert |p| == 13;
    assert HookName(n)[13..] == EventName(n);
    assert HookName(m)[13..] == EventName(m);
    assert GenericHook[13..] == "event";
  }
}
