/**
 * The payment flow of both point-of-sale pages as a record of its flags and
 * one guarded transition per event.  A timer set up by an effect fires only
 * while the state that set it up is unchanged (a state change clears it), so
 * each timer event is a transition guarded by the effect's condition and is
 * no event at all otherwise.  Delays are not modelled.
 */
module Payment {
  import opened Wrappers

  /** `paymentStep`. */
  datatype Step = Waiting | Success

  /** `transactionStatus` when set: 'pending' or 'success'. */
  datatype TxStatus = TxPending | TxSuccess

  /** The payment, receipt, step and transaction-status flags of a page. */
  datatype Flags = Flags(showPayment: bool, showReceipt: bool, step: Step, status: Option<TxStatus>)

  /** The flags when a page is first shown. */
  const Initial: Flags := Flags(false, false, Waiting, None)

  /**
   * The payment-step timer of both pages: while the payment view is open,
   * `waiting` becomes `success`, and `success` closes the payment view,
   * opens the receipt and resets the step to `waiting`.
   */
  function StepTimer(f: Flags): (r: Flags)
    ensures !f.showPayment ==> r == f
    ensures f.showPayment ==> r.step != f.step
    ensures r.showPayment == (f.showPayment && f.step == Waiting)
    ensures r.showReceipt == (f.showReceipt || (f.showPayment && f.step == Success))
    ensures r.status == f.status
  {
    if !f.showPayment then f
    else match f.step
      case Waiting => f.(step := Success)
      case Success => f.(showPayment := false, showReceipt := true, step := Waiting)
  }

  /**
   * The transaction-status timer of the newer page: while the payment view
   * is open and the status is `success`, it closes the payment view, opens
   * the receipt and clears the status.
   */
  function StatusTimer(f: Flags): (r: Flags)
    ensures r.showPayment == (f.showPayment && f.status != Some(TxSuccess))
    ensures r.showReceipt == (f.showReceipt || (f.showPayment && f.status == Some(TxSuccess)))
    ensures r.step == f.step
    ensures f.showPayment && f.status == Some(TxSuccess) ==> r.status == None
    ensures !(f.showPayment && f.status == Some(TxSuccess)) ==> r == f
  {
    if f.showPayment && f.status == Some(TxSuccess) then
      f.(showPayment := false, showReceipt := true, status := None)
    else f
  }

  /**
   * The delayed callback `handleCharge` of the newer page schedules: once the
   * transaction's status is written as `success` the page's status follows;
   * if the write fails the status stays.  It is not guarded and not cleared.
   */
  function StatusWritten(f: Flags, ok: bool): (r: Flags)
    ensures r.showPayment == f.showPayment && r.showReceipt == f.showReceipt && r.step == f.step
    ensures ok ==> r.status == Some(TxSuccess)
    ensures !ok ==> r == f
  {
    if ok then f.(status := Some(TxSuccess)) else f
  }

  /** A charge of the newer page whose transaction record was created. */
  function ChargeOpened(f: Flags): (r: Flags)
    ensures r.showPayment && r.step == Waiting && r.status == Some(TxPending)
    ensures r.showReceipt == f.showReceipt
  {
    f.(showPayment := true, step := Waiting, status := Some(TxPending))
  }

  /** A charge of the older page: it opens the payment view at `waiting` and nothing else. */
  function ClassicCharge(f: Flags): (r: Flags)
    ensures r.showPayment && r.step == Waiting
    ensures r.showReceipt == f.showReceipt && r.status == f.status
  {
    f.(showPayment := true, step := Waiting)
  }

  /** The Cancel / close button of the payment view. */
  function ClosePayment(f: Flags): (r: Flags)
    ensures !r.showPayment
    ensures r.showReceipt == f.showReceipt && r.step == f.step && r.status == f.status
  {
    f.(showPayment := false)
  }

  /** The Done button of the receipt. */
  function Done(f: Flags): (r: Flags)
    ensures !r.showReceipt
    ensures r.showPayment == f.showPayment && r.step == f.step && r.status == f.status
  {
    f.(showReceipt := false)
  }

  datatype Event =
    | NewCharge(recorded: bool)
    | OldCharge
    | StepTick
    | StatusTick
    | StatusWrite(ok: bool)
    | Cancel
    | ReceiptDone

  /** Timer events are the ones no user causes. */
  predicate IsTimerEvent(e: Event)
  {
    e.StepTick? || e.StatusTick? || e.StatusWrite?
  }

  function Apply(f: Flags, e: Event): Flags
  {
    match e
    case NewCharge(recorded) => if recorded then ChargeOpened(f) else f
    case OldCharge => ClassicCharge(f)
    case StepTick => StepTimer(f)
    case StatusTick => StatusTimer(f)
    case StatusWrite(ok) => StatusWritten(f, ok)
    case Cancel => ClosePayment(f)
    case ReceiptDone => Done(f)
  }

  /** The flags after a run of events, taken in order. */
  function Run(f: Flags, events: seq<Event>): Flags
    decreases |events|
  {
    if events == [] then f else Run(Apply(f, events[0]), events[1..])
  }

  /** A run of two is one event after the other. */
  lemma RunPair(f: Flags, a: Event, b: Event)
    ensures Run(f, [a, b]) == Apply(Apply(f, a), b)
  {
    assert [a, b][1..] == [b];
    assert [b][1..] == [];
    assert Run(Apply(f, a), [b]) == Run(Apply(Apply(f, a), b), []);
  }

  /**
   * Each timer changes something exactly under its effect's guard: the step
   * timer while the payment view is open, the status timer while it is open
   * with status `success`.
   */
  lemma TimersFireOnlyUnderTheirGuards(f: Flags)
    ensures StepTimer(f) != f <==> f.showPayment
    ensures StatusTimer(f) != f <==> f.showPayment && f.status == Some(TxSuccess)
  {
  }

  /**
   * Once a charge opens the payment view, two step-timer events with no
   * user action end on the receipt, the step back at `waiting`.
   */
  lemma ChargeEndsOnReceiptByStepTimer(f: Flags)
    ensures Run(ChargeOpened(f), [StepTick, StepTick])
         == f.(showPayment := false, showReceipt := true, step := Waiting, status := Some(TxPending))
    ensures Run(ClassicCharge(f), [StepTick, StepTick])
         == f.(showPayment := false, showReceipt := true, step := Waiting)
  {
    RunPair(ChargeOpened(f), StepTick, StepTick);
    RunPair(ClassicCharge(f), StepTick, StepTick);
  }

  /**
   * On the newer page the status route ends on the receipt too when the
   * status write comes first, and then clears the status.
   */
  lemma ChargeEndsOnReceiptByStatus(f: Flags)
    ensures Run(ChargeOpened(f), [StatusWrite(true), StatusTick])
         == f.(showPayment := false, showReceipt := true, step := Waiting, status := None)
  {
    RunPair(ChargeOpened(f), StatusWrite(true), StatusTick);
  }

  /** A charge whose transaction record could not be created changes no flag. */
  lemma FailedChargeChangesNothing(f: Flags)
    ensures Apply(f, NewCharge(false)) == f
  {
  }

  /**
   * While the payment view is closed, timers neither open it, nor touch the
   * receipt or the step; only the unguarded status write can land.
   */
  lemma {:induction false} TimersInertWhilePaymentHidden(f: Flags, events: seq<Event>)
    requires !f.showPayment
    requires forall k :: 0 <= k < |events| ==> IsTimerEvent(events[k])
    ensures var g := Run(f, events); !g.showPayment && g.showReceipt == f.showReceipt && g.step == f.step
    decreases |events|
  {
    if events != [] {
      var g := Apply(f, events[0]);
      assert IsTimerEvent(events[0]);
      assert forall k :: 0 <= k < |events[1..]| ==> IsTimerEvent(events[1..][k]) by {
        forall k | 0 <= k < |events[1..]| ensures IsTimerEvent(events[1..][k]) {
          assert events[1..][k] == events[k + 1];
        }
      }
      TimersInertWhilePaymentHidden(g, events[1..]);
    }
  }

  /** Once the receipt is shown, it stays shown until Done is pressed. */
  lemma {:induction false} ReceiptStaysUntilDone(f: Flags, events: seq<Event>)
    requires f.showReceipt
    requires forall k :: 0 <= k < |events| ==> !events[k].ReceiptDone?
    ensures Run(f, events).showReceipt
    decreases |events|
  {
    if events != [] {
      assert !events[0].ReceiptDone?;
      assert forall k :: 0 <= k < |events[1..]| ==> !events[1..][k].ReceiptDone? by {
        forall k | 0 <= k < |events[1..]| ensures !events[1..][k].ReceiptDone? {
          assert events[1..][k] == events[k + 1];
        }
      }
      ReceiptStaysUntilDone(Apply(f, events[0]), events[1..]);
    }
  }

  /** The events of the older page: its charge, the step timer, Cancel and Done. */
  predicate IsClassicEvent(e: Event)
  {
    e.OldCharge? || e.StepTick? || e.Cancel? || e.ReceiptDone?
  }

  /** The older page has no transaction status: none of its events sets one. */
  lemma {:induction false} ClassicRunsHaveNoStatus(f: Flags, events: seq<Event>)
    requires f.status == None
    requires forall k :: 0 <= k < |events| ==> IsClassicEvent(events[k])
    ensures Run(f, events).status == None
    decreases |events|
  {
    if events != [] {
      assert IsClassicEvent(events[0]);
      assert forall k :: 0 <= k < |events[1..]| ==> IsClassicEvent(events[1..][k]) by {
        forall k | 0 <= k < |events[1..]| ensures IsClassicEvent(events[1..][k]) {
          assert events[1..][k] == events[k + 1];
        }
      }
      ClassicRunsHaveNoStatus(Apply(f, events[0]), events[1..]);
    }
  }
}
