# Revenue-audit funnel calculator, in Dafny

This project models the core of the revenue-audit ("revenue leakage
calculator") page in `app/page.tsx`. A visitor passes through seven screens.
On screen 1 they enter monthly visits, checkout rate, conversion rate, product
price and acquisition cost (CAC). The page then shows how much money the
abandoned checkouts cost. It also shows how much a chosen recovery rate would
win back, and how many newly bought leads that amount would pay for. The page
writes to a lead record store. It inserts the business numbers when the visitor
leaves screen 1. On the final submit it updates that row with the contact
details. When each handler runs alone, that is one insert followed only by
updates (see "Left out" for overlapping clicks).

Two modules follow the two kinds of code in the page:

- `Metrics` (`metrics.dfy`) holds the calculator as pure functions over
  `real`. These are the `calculations` record, the recovered revenue, the
  equivalent-leads count, the lost-sales count and the chart bars. The page
  uses one rule for a missing CAC: `cac || productPrice * 0.3`. Here it is the
  single function `EffectiveCac`. JavaScript turns a division by zero into NaN
  or an infinity; the two counts that divide return `None` there.
- `Funnel` (`funnel.dfy`) holds the page's React state as the class
  `RevenueAudit`, and each event handler as one of its methods. The store
  itself is not modelled. Each call's answer is a parameter of the method: an
  `Option<string>` id for the insert and a `bool` for the update. A ghost
  `storeLog` keeps the calls in order. The invariant `Valid()` says several things:
  - nothing is written before step 2;
  - past screen 1, the inputs have passed that screen's gate;
  - the first call inserts the current inputs;
  - every later call updates the id the insert returned, which is the lead id
    the page kept;
  - each update carries a slider rate and the revenue that rate wins back from
    the inserted monthly loss.

  Each control's method requires the screen that shows the control: the input
  fields are on screen 1, the slider on screen 4 and the contact fields on
  screen 6.

JavaScript truthiness is written out. A number is falsy when it is 0, and a
string when it is empty. So an empty id returned by the insert is not kept,
and a CAC of 0 is stored as null.

## Model

| member | source | states |
|---|---|---|
| `Metrics.EffectiveCac` | app/page.tsx:111 | a non-zero `cac` is used as it is; a `cac` of 0 is replaced by 30% of the price; the result is zero exactly when both `cac` and the price are zero; it is non-negative for non-negative inputs |
| `Metrics.Calculate` | app/page.tsx:105-112 | abandonment plus the visitors who pass checkout make up all visits; monthly loss = abandonment × price; annual loss is exactly 12 × monthly loss; upsell potential is 0 and the true value per lead is the price; sunk cost = abandonment × effective CAC |
| `Metrics.NewLeadsEquivalent` | app/page.tsx:115 | defined exactly when the effective CAC is non-zero, and then it is the floor of recovered revenue ÷ effective CAC |
| `Metrics.LostSalesCount` | app/page.tsx:441 | defined exactly when the price is non-zero |
| `Metrics.ChartData` | app/page.tsx:484-495 | two bars; the new-sale bar costs the effective CAC, and its cost + profit is the true value per lead; the recovered-sale bar costs 0 and its profit is the whole true value per lead |
| `Metrics.AbandonmentBounded` | app/page.tsx:108 | with visits ≥ 0 and a checkout rate in [0, 100], 0 ≤ abandonment ≤ visits |
| `Metrics.LostSalesIsFlooredAbandonment` | app/page.tsx:441 | for a non-zero price, the lost-sales count is the abandonment rounded down |
| `Metrics.RecoveredRevenue` | app/page.tsx:114 | for a rate in [0, 100] and a non-negative loss, 0 ≤ recovered ≤ monthly loss; for a rate strictly between 0 and 100 (so for every slider value 5 to 30, app/page.tsx:552-557) and a positive loss, 0 < recovered < monthly loss |
| `Metrics.AnnualRecoveredRevenue` | app/page.tsx:576 | for a rate in [0, 100] and a non-negative loss, the yearly recovered figure lies between 0 and 12 × the monthly loss |
| `Metrics.InputsComplete` | app/page.tsx:399 | when the screen-1 button is enabled, the price and the effective CAC are both non-zero |
| `Metrics.FullRecoveryOnlyAtHundredPercent` | app/page.tsx:114 | for a positive loss, recovered = loss if and only if the rate is 100 |
| `Metrics.NewLeadsIsLargestAffordable` | app/page.tsx:115 | for a positive effective CAC, n leads cost at most the recovered revenue and n + 1 cost more; every m whose cost fits is ≤ n |
| `Metrics.NewLeadsNonNegative` | app/page.tsx:115 | a non-negative recovered revenue and a positive effective CAC give a count ≥ 0 |
| `Metrics.ExplicitFallbackCacChangesNothing` | app/page.tsx:111-115 | with `cac` = 0, typing in 0.3 × price changes no output: effective CAC, calculations, equivalent leads, lost sales and chart are all equal |
| `Metrics.PlaceholderExample` | app/page.tsx:336-384 | the step-1 placeholder figures (1000 visits, 20% checkout, 10% conversion, price 297, CAC 45) at the slider's initial 10% give abandonment 800, monthly loss 237 600, annual loss 2 851 200, sunk cost 36 000, recovered revenue 23 760, 528 equivalent leads and 800 lost sales; with CAC 0 the sunk cost is 71 280 |
| `Funnel.WithField` | app/page.tsx:203-205 | the named input field takes the new value and every other field keeps its value |
| `Funnel.WithFormValue` | app/page.tsx:686-718 | the named contact field takes the new value and the other two keep theirs |
| `Funnel.BusinessRecordOf` | app/page.tsx:127-140 | the inserted row copies the inputs and the page's loss figures; its CAC is null exactly when `cac` is 0; its annual loss is 12 × its monthly loss and its value per lead is the price |
| `Funnel.ContactRecordOf` | app/page.tsx:161-166 | the update carries the contact fields as typed and the rate; its recovered revenue is computed from the monthly loss stored by the insert, and for a slider rate and a positive loss it is strictly between 0 and that loss |
| `Funnel.ExplicitFallbackCacIsStored` | app/page.tsx:134 | typing the fallback CAC by hand does change the inserted row, and only in its CAC column |
| `Funnel.FailedInsertBlocksUpdate` | app/page.tsx:151-155 | if the insert gave no usable id, no lead id is kept and the log holds no update |
| `Funnel.RevenueAudit.constructor` | app/page.tsx:91-102 | the initial state: step 0, all inputs 0, rate 10, empty form, no lead id, not submitting, nothing written |
| `Funnel.RevenueAudit.CanContinue` | app/page.tsx:397-399 | an enabled continue button leads to a screen that exists; in a valid state it is enabled only on screen 0 or with inputs that pass the screen-1 gate, so every screen from 2 on holds complete inputs |
| `Funnel.ResultScreensShowFiniteCounts` | app/page.tsx:441-582 | in a valid state from screen 2 on, the lost-sales count (screen 2) and the equivalent-leads count (screen 4) are both finite |
| `Funnel.RevenueAudit.CanSubmit` | app/page.tsx:725 | when the submit button is enabled, the update it leads to carries three non-empty contact fields; in a valid state the insert has already been made |
| `Funnel.RevenueAudit.SaveBusinessData` | app/page.tsx:124-149 | appends exactly one insert of the business record to the log and returns the store's answer |
| `Funnel.RevenueAudit.NextStep` | app/page.tsx:181-189 | called from screens 0 to 5, and from screen 1 only with inputs that pass its gate, the step goes up by exactly 1 whatever the store answers; the insert happens only when leaving step 1; the lead id changes only then, and only to a truthy returned id; inputs, form, rate and flag are not touched; `Valid()` is kept |
| `Funnel.RevenueAudit.Continue` | app/page.tsx:397-399 | a click advances if and only if the continue button is there and enabled (on screen 1, only when price, visits and checkout rate are non-zero); otherwise nothing changes |
| `Funnel.RevenueAudit.UpdateInput` | app/page.tsx:203-205 | on screen 1, where the fields are shown, only the input record changes, and in it only the named field; `Valid()` is kept |
| `Funnel.RevenueAudit.UpdateFormField` | app/page.tsx:686-718 | on the last screen, where the fields are shown, only the contact form changes, and in it only the named field; `Valid()` is kept |
| `Funnel.RevenueAudit.SetRecoveryRate` | app/page.tsx:552-557 | on screen 4, where the slider is shown, the rate takes the slider's value and nothing else changes; `Valid()` is kept |
| `Funnel.RevenueAudit.SavePersonalData` | app/page.tsx:151-179 | without a truthy lead id: returns false and makes no store call; otherwise appends one update of that id with the contact fields and recovery figures, and returns the store's answer |
| `Funnel.RevenueAudit.HandleFinalSubmit` | app/page.tsx:191-201 | the submitting flag is down afterwards; the update is attempted exactly when there is a lead id; the success alert shows exactly when there is a lead id and the store accepted the update; the update's recovered revenue is the current rate applied to the monthly loss the insert stored; `Valid()` is kept |
| `Funnel.RevenueAudit.Submit` | app/page.tsx:722-725 | a click runs the submit handler if and only if the visitor is on the last screen, all three contact fields are non-empty and no submit is in flight; an update it writes carries the current rate applied to the inserted monthly loss; otherwise nothing is written |

## Left out

- Rendering is not modelled: the JSX, `InsightCard`, `InfoTooltip`, the animation variants and the progress bar width (app/page.tsx:45-80, 117-122, 207-745). They are presentation only.
- `formatCurrency` (app/page.tsx:83-88) is not modelled. It wraps a locale library that is not part of this model.
- The record store, `console.log`, `alert` and the clock are not modelled. The store's answers are method parameters. The two alerts are the `Notice` result. The `completed_at` and `updated_at` timestamps are not part of `ContactRecord`.
- `async`/`await` is not modelled. Each handler runs to completion, so the moment where `isSubmitting` is true while the update is pending cannot be observed. That moment is when the page's button is disabled against a second click.
- Funnel.RevenueAudit.NextStep: `Valid()` (one insert, then only updates of its id) holds only when handlers run one at a time. The screen-1 continue button has no guard while the insert is pending (app/page.tsx:183, 396-399). A second click during that wait runs `nextStep` again on step 1. It inserts a second row and moves the step from 1 to 3, so screen 2 is skipped. `leadId` then holds the id of whichever insert finished last. The model does not capture this interleaving.
- Funnel.RevenueAudit.HandleFinalSubmit: after either alert (app/page.tsx:197, 199) the visitor can submit again, because the button at app/page.tsx:725 has no "already sent" guard. Each try makes one more update. The model allows this: `Valid()` admits any number of updates after the insert.
- Floating point is not modelled. Numbers are exact reals, with no IEEE-754 rounding. NaN inputs (`Number` of text that is not a number) are not modelled either. `None` stands for any non-finite JavaScript result (NaN or an infinity), without saying which.
- Metrics.NewLeadsEquivalent: states the floor and its domain, but not which non-finite value JavaScript shows when the effective CAC is 0.
- Metrics.LostSalesCount: states its domain. Its value is given by `LostSalesIsFlooredAbandonment`, not by its own contract.
- Funnel.RevenueAudit.NextStep: requires step < 6, because the handler is wired only to the continue buttons on screens 0 to 5. From screen 1 it requires inputs that pass the gate, because that button is disabled otherwise (app/page.tsx:399).
- Funnel.RevenueAudit.SetRecoveryRate: requires a value in [5, 30], because the slider offers nothing else. The model allows any real in that range, not only the slider's whole-number steps.
- The other funnel variants (fixed sales multipliers, upsell prices, audience-scale scenarios, the URL-parameter entry point) and a restart action are not in `app/page.tsx`, so they are not modelled. In this page, `upsellPotential` is 0 and the true value per lead is the product price, and the model follows that code. A failed insert does not stop the funnel: the page still advances, and only the final submit fails. The model follows that too.
