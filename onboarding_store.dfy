/** The wizard's state container: four fields, each replaced wholesale by its own setter. */
module OnboardingStore {
  import CardSchema

  /** What the store holds under `billing`: the empty object it starts with, or the
      record the card form submitted. */
  datatype Billing = EmptyObject | CardDetails(card: CardSchema.CardData)

  /** The store's fields as one value, so that whole states can be compared. */
  datatype State = State(currentStep: string, plan: string, billing: Billing, invites: seq<string>)

  /** The state a freshly created store holds. */
  const INITIAL: State := State("", "", EmptyObject, [])

  class Store {
    var currentStep: string
    var plan: string
    var billing: Billing
    var invites: seq<string>

    function Snapshot(): State
      reads this
    {
      State(currentStep, plan, billing, invites)
    }

    /** The store as created: no step, no plan, an empty billing object, no invites. */
    constructor ()
      ensures Snapshot() == INITIAL
    {
      currentStep := "";
      plan := "";
      billing := EmptyObject;
      invites := [];
    }

    method SetSelectedPlan(p: string)
      modifies this
      ensures Snapshot() == old(Snapshot()).(plan := p)
    {
      plan := p;
    }

    /** Any string is accepted; nothing checks it against the step catalog. */
    method SetCurrentStep(step: string)
      modifies this
      ensures Snapshot() == old(Snapshot()).(currentStep := step)
    {
      currentStep := step;
    }

    method SetBilling(b: Billing)
      modifies this
      ensures Snapshot() == old(Snapshot()).(billing := b)
    {
      billing := b;
    }

    method SetInvites(list: seq<string>)
      modifies this
      ensures Snapshot() == old(Snapshot()).(invites := list)
    {
      invites := list;
    }
  }

  /** Calling a setter a second time with the same value leaves the store exactly as
      one call leaves it; one method per setter. */
  method SetSelectedPlanTwice(s: Store, p: string)
    modifies s
    ensures s.Snapshot() == old(s.Snapshot()).(plan := p)
  {
    s.SetSelectedPlan(p);
    s.SetSelectedPlan(p);
  }

  method SetCurrentStepTwice(s: Store, step: string)
    modifies s
    ensures s.Snapshot() == old(s.Snapshot()).(currentStep := step)
  {
    s.SetCurrentStep(step);
    s.SetCurrentStep(step);
  }

  method SetBillingTwice(s: Store, b: Billing)
    modifies s
    ensures s.Snapshot() == old(s.Snapshot()).(billing := b)
  {
    s.SetBilling(b);
    s.SetBilling(b);
  }

  method SetInvitesTwice(s: Store, list: seq<string>)
    modifies s
    ensures s.Snapshot() == old(s.Snapshot()).(invites := list)
  {
    s.SetInvites(list);
    s.SetInvites(list);
  }
}
