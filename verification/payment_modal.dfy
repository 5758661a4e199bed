/** The payment modal's form state: choose a method (step 1), enter the
    payer phone and transaction id (step 2), see the success screen
    (step 3). Every user action is an event; an action whose control is not
    shown or is disabled in the current state changes nothing. */
module PaymentModal {
  import opened Js

  datatype Method = Bkash | Nagad

  datatype Step = ChooseMethod | EnterDetails | Success {
    /** The step number the component stores. */
    function Number(): nat {
      match this
      case ChooseMethod => 1
      case EnterDetails => 2
      case Success => 3
    }
  }

  datatype ModalState = ModalState(
    selectedMethod: Option<Method>,
    phoneNumber: string,
    transactionId: string,
    step: Step)

  /** The state the modal starts in and `resetForm` returns to. */
  const Initial := ModalState(None, "", "", ChooseMethod)

  datatype Event =
    | SelectMethod(m: Method)         // a method card, step 1
    | Continue                        // "Continue to Payment", step 1
    | EditPhone(phone: string)        // phone input, step 2
    | EditTransactionId(id: string)   // transaction id input, step 2
    | Back                            // "Back", step 2
    | Confirm                         // "Confirm Payment", step 2
    | Close                           // backdrop, close icon, or step 3 "Close"

  /** The next state, and whether the parent's `onClose` was called. */
  datatype Reaction = Reaction(next: ModalState, closed: bool)

  /** The control for `e` is on screen and enabled in state `s`. */
  predicate Enabled(s: ModalState, e: Event) {
    match e
    case SelectMethod(_) => s.step == ChooseMethod
    case Continue => s.step == ChooseMethod && s.selectedMethod.Some?
    case EditPhone(_) => s.step == EnterDetails
    case EditTransactionId(_) => s.step == EnterDetails
    case Back => s.step == EnterDetails
    case Confirm => s.step == EnterDetails && s.phoneNumber != "" && s.transactionId != ""
    case Close => true
  }

  function Handle(s: ModalState, e: Event): (r: Reaction)
    ensures r.closed <==> e == Close
    ensures e == Close ==> r.next == Initial
    ensures !Enabled(s, e) ==> r.next == s
    // Choosing a method changes only the choice.
    ensures e.SelectMethod? && Enabled(s, e) ==> r.next == s.(selectedMethod := Some(e.m))
    // Back returns to step 1 and keeps everything entered.
    ensures e == Back && Enabled(s, e) ==> r.next == s.(step := ChooseMethod)
    // Continue moves to step 2, Confirm to step 3, and each input sets its
    // own field; nothing else changes.
    ensures e == Continue && Enabled(s, e) ==> r.next == s.(step := EnterDetails)
    ensures e == Confirm && Enabled(s, e) ==> r.next == s.(step := Success)
    ensures e.EditPhone? && Enabled(s, e) ==> r.next == s.(phoneNumber := e.phone)
    ensures e.EditTransactionId? && Enabled(s, e) ==> r.next == s.(transactionId := e.id)
    // Only a confirmation from step 2 reaches the success screen.
    ensures r.next.step == Success && s.step != Success
            ==> e == Confirm && s.step == EnterDetails && s.phoneNumber != "" && s.transactionId != ""
    ensures r.next.step == EnterDetails && s.step != EnterDetails
            ==> e == Continue && s.selectedMethod.Some?
  {
    if !Enabled(s, e) then Reaction(s, false)
    else match e
      case SelectMethod(m) => Reaction(s.(selectedMethod := Some(m)), false)
      case Continue => Reaction(s.(step := EnterDetails), false)
      case EditPhone(v) => Reaction(s.(phoneNumber := v), false)
      case EditTransactionId(v) => Reaction(s.(transactionId := v), false)
      case Back => Reaction(s.(step := ChooseMethod), false)
      case Confirm => Reaction(s.(step := Success), false)
      case Close => Reaction(Initial, true)
  }

  /** Past step 1 a method is chosen; on the success screen both payment
      details are non-empty. */
  ghost predicate Consistent(s: ModalState) {
    && (s.step != ChooseMethod ==> s.selectedMethod.Some?)
    && (s.step == Success ==> s.phoneNumber != "" && s.transactionId != "")
  }

  lemma HandleKeepsConsistent(s: ModalState, e: Event)
    requires Consistent(s)
    ensures Consistent(Handle(s, e).next)
  {
  }

  /** The state after a sequence of events. */
  function Run(s: ModalState, events: seq<Event>): ModalState
    decreases |events|
  {
    if events == [] then s else Run(Handle(s, events[0]).next, events[1..])
  }

  /** Every state reachable from the initial one is consistent; in
      particular `handlePayment` always has a method to report, and the
      stored step number is 1, 2 or 3. */
  lemma {:induction false} ReachableIsConsistent(s: ModalState, events: seq<Event>)
    requires Consistent(s)
    ensures Consistent(Run(s, events))
    ensures Run(s, events).step.Number() in {1, 2, 3}
    decreases |events|
  {
    if events != [] {
      HandleKeepsConsistent(s, events[0]);
      ReachableIsConsistent(Handle(s, events[0]).next, events[1..]);
    }
  }

  /** The initial state has no method, empty details and step 1, and is
      consistent; so is everything reached from it. */
  lemma InitialIsConsistent(events: seq<Event>)
    ensures Initial.selectedMethod.None? && Initial.phoneNumber == "" && Initial.transactionId == ""
    ensures Initial.step.Number() == 1
    ensures Consistent(Run(Initial, events))
  {
    ReachableIsConsistent(Initial, events);
  }

  /** The happy path: choose, continue, fill in both details, confirm. */
  lemma HappyPath(m: Method, phone: string, id: string)
    requires phone != "" && id != ""
    ensures Run(Initial, [SelectMethod(m), Continue, EditPhone(phone), EditTransactionId(id), Confirm])
            == ModalState(Some(m), phone, id, Success)
  {
    var e5 := [SelectMethod(m), Continue, EditPhone(phone), EditTransactionId(id), Confirm];
    var e4 := [Continue, EditPhone(phone), EditTransactionId(id), Confirm];
    var e3 := [EditPhone(phone), EditTransactionId(id), Confirm];
    var e2 := [EditTransactionId(id), Confirm];
    var e1 := [Confirm];
    assert e5[1..] == e4 && e4[1..] == e3 && e3[1..] == e2 && e2[1..] == e1 && e1[1..] == [];
    var s1 := ModalState(Some(m), "", "", ChooseMethod);
    var s2 := ModalState(Some(m), "", "", EnterDetails);
    var s3 := ModalState(Some(m), phone, "", EnterDetails);
    var s4 := ModalState(Some(m), phone, id, EnterDetails);
    var s5 := ModalState(Some(m), phone, id, Success);
    assert Run(s4, e1) == s5;
    assert Run(s3, e2) == Run(s4, e1);
    assert Run(s2, e3) == Run(s3, e2);
    assert Run(s1, e4) == Run(s2, e3);
    assert Run(Initial, e5) == Run(s1, e4);
  }
}
