# Onboarding wizard: step navigation, wizard state, invites and card schema

This project models the core of a three-step onboarding wizard (choose a plan, set up
billing, invite teammates) and proves properties of that model.

- `use_onboarding.dfy` (module `UseOnboarding`) covers the `useOnboarding` hook. It holds
  the fixed catalog `STEPS` (`"plan"`, `"billing"`, `"invitees"`) and `FindIndex`, the
  `findIndex` lookup that `getStepIndex` uses. It also holds the derived `steps` list with
  its `current` and `done` flags, the hook's `currentStep` lookup, and the `next`/`prev`
  moves. The pure parts take the catalog as a parameter. Their lemmas assume only that the
  ids are distinct, and `StepsHaveDistinctIds` proves this for `STEPS`. `Next` and `Prev`
  are methods that act on the store through its setter.
- `onboarding_store.dfy` (module `OnboardingStore`) covers the store. `Store` is a class
  with the four fields `currentStep`, `plan`, `billing` and `invites`, their initial
  values, and one setter per field. Each setter replaces its field and leaves the others
  unchanged.
- `invites_view.dfy` (module `InvitesView`) covers the invites step. It models the list
  that the add handler and the remove handler commit through `setInvites`, the guard that
  disables Finish, and the rule for placing separators.
- `card_schema.dfy` (module `CardSchema`) covers the billing card schema. It has one
  character-level predicate per field, and `Validate`, which reports the failing fields
  in key order with their fixed messages.

This model follows the code as written. The code does not record completion:
- `next` on the last step does nothing.
- No `completed` flag exists.
- `done` is true only for the steps before the current one.

Some tests expect more:
- `src/core/hooks/__test__/use-onboarding.test.tsx:32` uses the step ids `"pricing"`/`"invites"`.
- `src/core/hooks/__test__/use-onboarding.test.tsx:58-69` expects a completion branch in `next`.
- `src/core/hooks/__test__/use-onboarding.test.tsx:108-113` expects every step marked done once the wizard is finished.
- `src/core/lib/__tests__/onboarding-store.test.tsx` expects session persistence.

None of this is in `src/core/hooks/use-onboarding.tsx` or `src/core/lib/onboarding-store.ts`,
so the model leaves it out.

The hook's `next`/`prev` and the invite handlers read the store as it was at the last
render, not as it is when they run. `Next`, `Prev`, `OnSubmit` and `RemoveInvite` therefore
take that render-time value as a parameter. The methods that chain several calls say
whether a render happens between them.

## Model

| member | source | states |
|---|---|---|
| `UseOnboarding.FindIndex` | src/core/hooks/use-onboarding.tsx:38-40 | the result is -1 or a position holding the id; no earlier position holds it, and with -1 no position does |
| `UseOnboarding.IndexOfCatalogId` | src/core/hooks/use-onboarding.tsx:14-40 | with distinct ids, looking up the id at position i returns i |
| `UseOnboarding.StepsHaveDistinctIds` | src/core/hooks/use-onboarding.tsx:14-36 | the catalog has three entries and no two share an id |
| `UseOnboarding.DeriveSteps` | src/core/hooks/use-onboarding.tsx:61-65 | the derived steps have the catalog's length, and each entry carries the catalog step at the same position |
| `UseOnboarding.CurrentIsAtIndex` | src/core/hooks/use-onboarding.tsx:61-63 | a step is current iff its position is the position of the current id |
| `UseOnboarding.OneCurrentAtMost` | src/core/hooks/use-onboarding.tsx:61-65 | no two steps are current; some step is current iff the current id is in the catalog |
| `UseOnboarding.DoneIsBefore` | src/core/hooks/use-onboarding.tsx:64 | a step is done iff it comes before the current step; with an unknown id no step is done or current |
| `UseOnboarding.CurrentStepView` | src/core/hooks/use-onboarding.tsx:70 | nothing (undefined) iff the id is in no catalog entry; otherwise the derived entry for the catalog step at the id's position (title and description included), flagged current and not done |
| `UseOnboarding.NextTarget` | src/core/hooks/use-onboarding.tsx:45-51 | a target exists iff the current position is before the last one, and the target sits exactly one position further on |
| `UseOnboarding.PrevTarget` | src/core/hooks/use-onboarding.tsx:53-59 | a target exists iff the current position is 1 or more, and the target sits exactly one position back |
| `UseOnboarding.NextFromUnknownIsFirst` | src/core/hooks/use-onboarding.tsx:46-49 | from an id outside the catalog, such as the initial "", next goes to the first step |
| `UseOnboarding.PrevUndoesNext` | src/core/hooks/use-onboarding.tsx:45-59 | from any catalog step but the last, prev after next returns to the starting id |
| `UseOnboarding.NextUndoesPrev` | src/core/hooks/use-onboarding.tsx:45-59 | from any catalog step but the first, next after prev returns to the starting id |
| `UseOnboarding.Next` | src/core/hooks/use-onboarding.tsx:43-51 | the store's step becomes the next target of the render-time step if there is one and is otherwise unchanged; plan, billing and invites are unchanged |
| `UseOnboarding.Prev` | src/core/hooks/use-onboarding.tsx:43-59 | the store's step becomes the previous target of the render-time step if there is one and is otherwise unchanged; the other fields are unchanged |
| `UseOnboarding.NextThenPrev` | src/core/hooks/use-onboarding.tsx:45-59 | with a render between them, next then prev from a non-last catalog step leaves the whole state as it was |
| `UseOnboarding.WalkFromStart` | src/core/hooks/use-onboarding.tsx:45-51 | from "", with a render after each move, three nexts reach "invitees" and a fourth leaves it there; nothing else changes |
| `UseOnboarding.NextTwiceInOneRender` | src/core/hooks/use-onboarding.tsx:43-51 | two calls of the same render's next from "" both start from "", so the store reaches only "plan" |
| `UseOnboarding.PrevAtFirstStays` | src/core/hooks/use-onboarding.tsx:53-59 | on "plan", repeated prev leaves the store unchanged |
| `OnboardingStore.Store.constructor` | src/core/lib/onboarding-store.ts:14-18 | the initial state is step "", plan "", an empty billing object and no invites |
| `OnboardingStore.Store.SetSelectedPlan` | src/core/lib/onboarding-store.ts:19 | the plan is replaced; the other three fields are unchanged |
| `OnboardingStore.Store.SetCurrentStep` | src/core/lib/onboarding-store.ts:20 | the step is replaced by any string, with no catalog check; the other fields are unchanged |
| `OnboardingStore.Store.SetBilling` | src/core/lib/onboarding-store.ts:21 | billing is replaced wholesale, not merged; the other fields are unchanged |
| `OnboardingStore.Store.SetInvites` | src/core/lib/onboarding-store.ts:22 | the invite list is replaced wholesale; the other fields are unchanged |
| `OnboardingStore.SetSelectedPlanTwice` | src/core/lib/onboarding-store.ts:19 | setting the same plan twice gives the state one call gives |
| `OnboardingStore.SetCurrentStepTwice` | src/core/lib/onboarding-store.ts:20 | setting the same step twice gives the state one call gives |
| `OnboardingStore.SetBillingTwice` | src/core/lib/onboarding-store.ts:21 | setting the same billing twice gives the state one call gives |
| `OnboardingStore.SetInvitesTwice` | src/core/lib/onboarding-store.ts:22 | setting the same invite list twice gives the state one call gives |
| `InvitesView.Appended` | src/views/invites/index.tsx:21-22 | the new list is one longer, keeps the old list as its prefix, ends with the email and adds exactly that email to the multiset |
| `InvitesView.AddingKeepsDuplicates` | src/views/invites/index.tsx:22 | an email already present occurs at least twice after adding it, so nothing is deduplicated |
| `InvitesView.WithoutAt` | src/views/invites/index.tsx:62-65 | the new list is one shorter, keeps the entries before the index in place and shifts the later ones down by one, and removes exactly one copy of the removed entry |
| `InvitesView.RemovalKeepsOthers` | src/views/invites/index.tsx:62-65 | every value other than the removed one is still in the list |
| `InvitesView.RemoveUndoesAdd` | src/views/invites/index.tsx:21-65 | removing the entry that was just added gives back the original list |
| `InvitesView.FinishDisabled` | src/views/invites/index.tsx:89 | Finish is disabled iff the invite list is empty |
| `InvitesView.SeparatorsBetweenEntries` | src/views/invites/index.tsx:69 | every entry but the last is followed by a separator, so a list of n entries (n > 0) shows n - 1 separators |
| `InvitesView.OnSubmit` | src/views/invites/index.tsx:14-24 | the store's invites become the render-time list with the email appended; nothing else changes |
| `InvitesView.RemoveInvite` | src/views/invites/index.tsx:54-66 | the store's invites become the render-time list without the entry at the index; nothing else changes |
| `InvitesView.TwoAddsInOneRender` | src/views/invites/index.tsx:14-24 | two adds handled in one render both extend the render-time list, so only the second email ends up appended |
| `CardSchema.Validate` | src/views/billing/schemas.tsx:3-19 | no issues iff all five field predicates hold; a field has an issue iff its predicate fails; each issue carries its field's fixed message; no field is reported twice |
| `CardSchema.IssuesAreFailures` | src/views/billing/schemas.tsx:3-19 | every reported issue names a listed field that fails, with that field's message |
| `CardSchema.FailuresAreReported` | src/views/billing/schemas.tsx:3-19 | every listed field that fails is reported |
| `CardSchema.OneIssuePerField` | src/views/billing/schemas.tsx:3-19 | distinct keys yield at most one issue per field |
| `CardSchema.MonthIsCalendarMonth` | src/views/billing/schemas.tsx:10-12 | the month pattern accepts exactly two ASCII digits whose value is between 1 and 12 |
| `CardSchema.MonthEdges` | src/views/billing/schemas.tsx:10-12 | "00", "13" and "1" are rejected; "01", "09" and "12" are accepted |

The field predicates are `ValidCardHolderName` (length at least 1, so a blank name
passes), `ValidCardNumber` (exactly 16 ASCII digits), `ValidExpirationMonth` (`0` then
`1`-`9`, or `1` then `0`-`2`), `ValidExpirationYear` (exactly 2 ASCII digits) and
`ValidCvc` (exactly 3 ASCII digits). They are definitions, not members with contracts, and
`Validate` states what follows from them.

## Left out

- Session persistence (localStorage), the `completed` flag, `setCompleted` and `clearSession`: the store in `src/core/lib/onboarding-store.ts` has none of them, and they are browser storage I/O.
- A completion branch in `next`: the hook has none. On the last step `next` calls no setter, so the model records no completion.
- The step ids `"pricing"`/`"invites"` that some tests use: the catalog uses `"plan"`/`"invitees"`.
- The `component` field of each catalog entry and all rendering: buttons, text, headers, layouts, icons, class names and `maxLength` truncation of inputs.
- The `...onboarding` spread in the hook's result: it only passes the store's fields and setters through. The model covers the two entries the hook adds or overrides (`steps`, `currentStep`) and the two moves (`next`, `prev`).
- `useSampleMutation` and the await-then-callback submit handlers: they involve timers, `Math.random()` and async scheduling.
- The form `reset()` after adding an invite and the email schema of the invite form: these are form-library behaviour outside this model.
- The ticker text of the onboarding organism, static plan data, build configuration and type declarations.
- `OnboardingStore.Billing`: the store types `billing` as `unknown`. The model allows the initial empty object or the card form's record, the only value the code ever stores.
- `InvitesView.WithoutAt`: requires `0 <= index < |invites|`. The handler is only ever bound to an index of the rendered list, so out-of-range slicing is not modelled.
- React's render scheduling: when a render happens is not modelled. The render-time value is a parameter that the caller supplies.
- UTF-16: strings are modelled as sequences of Unicode characters, not of UTF-16 code units. The fixed-length checks accept only ASCII digits, and the name check only asks for a non-empty string, so the two counts give the same verdicts.
