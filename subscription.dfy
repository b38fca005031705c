/**
 * The subscription page (pages/Subscription.tsx): the Pro price per
 * currency, the two plan cards and their buttons, and the upgrade through
 * the payment dialog.
 */
module Subscription {
  import opened Types
  import opened SettingsContext
  import opened PaymentModal

  /** getProPrice: 399 rupees, or 4.99 in euros and dollars. */
  function ProPrice(c: Currency): (p: real)
    ensures p > 0.0
    ensures c == INR ==> p == 399.0
    ensures c != INR ==> p == 4.99
  {
    match c
    case INR => 399.0
    case EUR => 4.99
    case USD => 4.99
  }

  datatype Plan = Plan(id: SubscriptionTier, name: string, price: real, recommended: bool)

  /** PLANS: the free plan at 0 and the recommended Pro plan at the Pro price. */
  function Plans(c: Currency): (ps: seq<Plan>)
    ensures |ps| == 2 && ps[0].id == Free && ps[1].id == Pro
    ensures ps[0].price == 0.0 && ps[1].price == ProPrice(c)
    ensures !ps[0].recommended && ps[1].recommended
  {
    [Plan(Free, "Basic Planner", 0.0, false), Plan(Pro, "FestPlan Pro", ProPrice(c), true)]
  }

  /** The button of a plan card: disabled on the current plan. */
  datatype PlanButton = CurrentPlan | Downgrade | UpgradeNow

  function ButtonFor(plan: Plan, tier: SubscriptionTier): (b: PlanButton)
    ensures b == CurrentPlan <==> plan.id == tier
    ensures b == Downgrade <==> plan.id != tier && plan.price == 0.0
  {
    if plan.id == tier then CurrentPlan
    else if plan.price == 0.0 then Downgrade
    else UpgradeNow
  }

  /** Exactly one card is the current plan, and "Downgrade" shows only on the free card for a Pro user. */
  lemma PlanButtons(c: Currency, tier: SubscriptionTier)
    ensures var ps := Plans(c);
      (ButtonFor(ps[0], tier) == CurrentPlan) != (ButtonFor(ps[1], tier) == CurrentPlan)
    ensures var ps := Plans(c);
      forall i :: 0 <= i < 2 ==> (ButtonFor(ps[i], tier) == Downgrade <==> i == 0 && tier == Pro)
  {
  }

  class Page {
    var showPayment: bool
    const modal: Modal
    const settings: SettingsStore

    /** A payment is under way only while the dialog is shown. */
    predicate Valid()
      reads this, modal
    {
      modal.status != Idle ==> showPayment
    }

    constructor (settings: SettingsStore)
      ensures Valid() && !showPayment && modal.status == Idle && this.settings == settings
      ensures fresh(modal)
    {
      showPayment := false;
      modal := new Modal();
      this.settings := settings;
    }

    /** handleUpgrade: every enabled button opens the dialog, "Downgrade" included. */
    method HandleUpgrade()
      requires Valid()
      modifies this
      ensures Valid() && showPayment
    {
      showPayment := true;
    }

    /** The close button, offered on the idle screen only. */
    method Close()
      requires Valid() && showPayment && modal.status == Idle
      modifies this
      ensures Valid() && !showPayment
    {
      showPayment := false;
    }

    method Pay()
      requires Valid() && showPayment && modal.status == Idle
      modifies modal
      ensures Valid() && modal.status == Processing
    {
      modal.HandlePay();
    }

    method FirstTimer()
      requires Valid() && modal.status == Processing
      modifies modal
      ensures Valid() && modal.status == Success
    {
      modal.ProcessingDone();
    }

    /**
     * The second timer: onSuccess sets the tier to Pro, onClose hides the
     * dialog, and the dialog goes back to idle, each once.
     */
    method SecondTimer()
      requires Valid() && modal.status == Success
      modifies this, modal, settings
      ensures Valid() && !showPayment && modal.status == Idle
      ensures settings.settings == old(settings.settings).(subscriptionTier := Pro)
    {
      settings.SetSubscriptionTier(Pro);
      showPayment := false;
      modal.Reset();
    }
  }
}
