/** The onboarding hook: the fixed step catalog, lookup of a step's position by id,
    the derived per-step flags, and the `next`/`prev` moves over the store. */
module UseOnboarding {
  import opened OnboardingStore

  datatype Option<T> = None | Some(value: T)

  /** A catalog entry. The React component each step renders is not part of the model. */
  datatype Step = Step(id: string, title: string, description: string)

  /** A catalog entry as the hook hands it out, with its two derived flags. */
  datatype StepView = StepView(step: Step, current: bool, done: bool)

  /** The catalog, in the order the wizard walks it. */
  const STEPS: seq<Step> := [
    Step("plan", "Choose a Plan",
      "Select the SaaS plan that best matches your team's needs, including pricing, features, and usage limits for future growth."),
    Step("billing", "Set Up Billing",
      "Enter your credit card details securely to enable billing, recurring payments, and proper invoicing through our trusted gateway."),
    Step("invitees", "Invite Teammates",
      "Add your team members by entering their email addresses so they can collaborate with you inside the platform right after onboarding.")
  ]

  predicate DistinctIds(catalog: seq<Step>) {
    forall i, j :: 0 <= i < j < |catalog| ==> catalog[i].id != catalog[j].id
  }

  /** `findIndex` on the id: the first position whose step carries `id`, or -1 when none does. */
  function FindIndex(catalog: seq<Step>, id: string): (r: int)
    ensures -1 <= r < |catalog|
    ensures r >= 0 ==> catalog[r].id == id
    ensures forall j :: 0 <= j < |catalog| && (r == -1 || j < r) ==> catalog[j].id != id
  {
    if |catalog| == 0 then -1
    else if catalog[0].id == id then 0
    else
      var k := FindIndex(catalog[1..], id);
      if k == -1 then -1 else k + 1
  }

  /** With distinct ids, looking up the id at position `i` gives back `i`. */
  lemma IndexOfCatalogId(catalog: seq<Step>, i: int)
    requires DistinctIds(catalog) && 0 <= i < |catalog|
    ensures FindIndex(catalog, catalog[i].id) == i
  {
  }

  lemma StepsHaveDistinctIds()
    ensures |STEPS| == 3 && DistinctIds(STEPS)
  {
  }

  /** The position of a step id in the hook's own catalog. */
  function GetStepIndex(id: string): int {
    FindIndex(STEPS, id)
  }

  /** The `steps` the hook returns: each entry of the catalog with its `current` and `done` flags. */
  function DeriveSteps(catalog: seq<Step>, currentStep: string): (r: seq<StepView>)
    ensures |r| == |catalog|
    ensures forall i :: 0 <= i < |r| ==> r[i].step == catalog[i]
  {
    seq(|catalog|, i requires 0 <= i < |catalog| =>
      StepView(catalog[i],
               catalog[i].id == currentStep,
               FindIndex(catalog, catalog[i].id) < FindIndex(catalog, currentStep)))
  }

  /** A step is current exactly when it sits at the position of the current id. */
  lemma CurrentIsAtIndex(catalog: seq<Step>, currentStep: string, i: int)
    requires DistinctIds(catalog) && 0 <= i < |catalog|
    ensures DeriveSteps(catalog, currentStep)[i].current <==> i == FindIndex(catalog, currentStep)
  {
  }

  /** At most one step is current; one is exactly when the current id is in the catalog. */
  lemma {:induction false} OneCurrentAtMost(catalog: seq<Step>, currentStep: string)
    requires DistinctIds(catalog)
    ensures forall i, j :: 0 <= i < j < |catalog| ==>
      !(DeriveSteps(catalog, currentStep)[i].current && DeriveSteps(catalog, currentStep)[j].current)
    ensures (exists i :: 0 <= i < |catalog| && DeriveSteps(catalog, currentStep)[i].current)
      <==> FindIndex(catalog, currentStep) >= 0
  {
    var k := FindIndex(catalog, currentStep);
    if k >= 0 {
      assert DeriveSteps(catalog, currentStep)[k].current;
    }
  }

  /** The steps before the current one are done; the current one and those after are not.
      With an id outside the catalog no step is done and none is current. */
  lemma DoneIsBefore(catalog: seq<Step>, currentStep: string, i: int)
    requires DistinctIds(catalog) && 0 <= i < |catalog|
    ensures DeriveSteps(catalog, currentStep)[i].done <==> i < FindIndex(catalog, currentStep)
    ensures FindIndex(catalog, currentStep) == -1 ==>
      !DeriveSteps(catalog, currentStep)[i].done && !DeriveSteps(catalog, currentStep)[i].current
  {
  }

  /** The `currentStep` the hook returns: the derived entry at the current id's position,
      or nothing (`undefined`) when the id is not in the catalog. */
  function CurrentStepView(catalog: seq<Step>, currentStep: string): (r: Option<StepView>)
    ensures r.None? <==> forall j :: 0 <= j < |catalog| ==> catalog[j].id != currentStep
    ensures r.Some? ==> r.value.step == catalog[FindIndex(catalog, currentStep)]
    ensures r.Some? ==> r.value.step.id == currentStep && r.value.current
    ensures r.Some? && DistinctIds(catalog) ==> !r.value.done
  {
    var i := FindIndex(catalog, currentStep);
    if i < 0 then None else Some(DeriveSteps(catalog, currentStep)[i])
  }

  /** The id `next` hands to `setCurrentStep`, or None when it calls nothing. */
  function NextTarget(catalog: seq<Step>, currentStep: string): (r: Option<string>)
    ensures r.Some? <==> FindIndex(catalog, currentStep) < |catalog| - 1
    ensures r.Some? && DistinctIds(catalog) ==>
      FindIndex(catalog, r.value) == FindIndex(catalog, currentStep) + 1
  {
    var nextStepIndex := FindIndex(catalog, currentStep) + 1;
    if nextStepIndex < |catalog| then Some(catalog[nextStepIndex].id) else None
  }

  /** The id `prev` hands to `setCurrentStep`, or None when it calls nothing. */
  function PrevTarget(catalog: seq<Step>, currentStep: string): (r: Option<string>)
    ensures r.Some? <==> FindIndex(catalog, currentStep) >= 1
    ensures r.Some? && DistinctIds(catalog) ==>
      FindIndex(catalog, r.value) == FindIndex(catalog, currentStep) - 1
  {
    var prevStepIndex := FindIndex(catalog, currentStep) - 1;
    if prevStepIndex >= 0 then Some(catalog[prevStepIndex].id) else None
  }

  /** From an id outside the catalog, such as the initial "", `next` goes to the first step. */
  lemma NextFromUnknownIsFirst(catalog: seq<Step>, currentStep: string)
    requires |catalog| > 0 && forall j :: 0 <= j < |catalog| ==> catalog[j].id != currentStep
    ensures NextTarget(catalog, currentStep) == Some(catalog[0].id)
  {
  }

  /** `prev` undoes `next` from every step but the last. */
  lemma PrevUndoesNext(catalog: seq<Step>, currentStep: string)
    requires DistinctIds(catalog)
    requires 0 <= FindIndex(catalog, currentStep) < |catalog| - 1
    ensures NextTarget(catalog, currentStep).Some?
    ensures PrevTarget(catalog, NextTarget(catalog, currentStep).value) == Some(currentStep)
  {
  }

  /** `next` undoes `prev` from every step but the first. */
  lemma NextUndoesPrev(catalog: seq<Step>, currentStep: string)
    requires DistinctIds(catalog)
    requires 1 <= FindIndex(catalog, currentStep)
    ensures PrevTarget(catalog, currentStep).Some?
    ensures NextTarget(catalog, PrevTarget(catalog, currentStep).value) == Some(currentStep)
  {
  }

  /** `next` as bound at a render that saw the store's step as `rendered`: the hook
      reads the render-time value, not the store's current one. The store's step moves one
      place forward from `rendered`; when `rendered` is the last step nothing changes.
      No other field of the store is touched. */
  method Next(store: Store, rendered: string)
    modifies store
    ensures var t := NextTarget(STEPS, rendered);
      store.Snapshot() == old(store.Snapshot()).(currentStep := if t.Some? then t.value else old(store.currentStep))
  {
    var nextStepIndex := GetStepIndex(rendered) + 1;
    if nextStepIndex < |STEPS| {
      store.SetCurrentStep(STEPS[nextStepIndex].id);
    }
  }

  /** `prev` as bound at a render that saw the store's step as `rendered`. The store's step
      moves one place back from `rendered`; on the first step, or with an id outside the
      catalog, nothing changes. No other field is touched. */
  method Prev(store: Store, rendered: string)
    modifies store
    ensures var t := PrevTarget(STEPS, rendered);
      store.Snapshot() == old(store.Snapshot()).(currentStep := if t.Some? then t.value else old(store.currentStep))
  {
    var prevStepIndex := GetStepIndex(rendered) - 1;
    if prevStepIndex >= 0 {
      store.SetCurrentStep(STEPS[prevStepIndex].id);
    }
  }

  /** Going forward, re-rendering, and going back again from any step but the last
      restores the store. */
  method NextThenPrev(store: Store)
    requires 0 <= GetStepIndex(store.currentStep) < |STEPS| - 1
    modifies store
    ensures store.Snapshot() == old(store.Snapshot())
  {
    StepsHaveDistinctIds();
    PrevUndoesNext(STEPS, store.currentStep);
    Next(store, store.currentStep);
    Prev(store, store.currentStep);
  }

  /** From the initial empty step, with a render after every move, three moves forward
      reach the last step and a fourth leaves it there: the code records no completion. */
  method WalkFromStart(store: Store)
    requires store.currentStep == ""
    modifies store
    ensures store.Snapshot() == old(store.Snapshot()).(currentStep := "invitees")
  {
    Next(store, store.currentStep);
    assert store.currentStep == "plan";
    Next(store, store.currentStep);
    assert store.currentStep == "billing";
    Next(store, store.currentStep);
    assert store.currentStep == "invitees";
    Next(store, store.currentStep);
  }

  /** Two calls of the same render's `next` both start from the rendered step, so from
      the initial empty step they reach only the first step. */
  method NextTwiceInOneRender(store: Store)
    requires store.currentStep == ""
    modifies store
    ensures store.Snapshot() == old(store.Snapshot()).(currentStep := "plan")
  {
    var rendered := store.currentStep;
    Next(store, rendered);
    Next(store, rendered);
  }

  /** On the first step `prev` changes nothing, however often it is called. */
  method PrevAtFirstStays(store: Store)
    requires store.currentStep == "plan"
    modifies store
    ensures store.Snapshot() == old(store.Snapshot())
  {
    Prev(store, store.currentStep);
    Prev(store, store.currentStep);
  }
}
