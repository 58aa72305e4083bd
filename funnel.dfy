/**
  The step machine of the revenue-audit page and its two writes to the lead
  record store. The page's React state (step, inputs, recovery rate, contact
  form, lead id, submitting flag) becomes the fields of RevenueAudit; each
  event handler becomes one method that runs to completion. The record store
  is not modelled: each method that calls it takes the store's answer as a
  parameter, and a ghost log keeps the calls in the order they were made.
*/
module Funnel {
  import opened Options
  import opened Metrics

  /** The last screen, the contact form; the continue buttons are on screens 0 to 5. */
  const FinalStep: nat := 6

  /** The recovery rate the slider starts at, in percent. */
  const InitialRecoveryRate: real := 10.0

  /** The keys of the input record that the step-1 form edits. */
  datatype InputField = MonthlyVisits | CheckoutRate | ConversionRate | ProductPrice | Cac

  /** `inputs[field]`: the value the form shows for a field. */
  function FieldOf(i: Inputs, f: InputField): (x: real)
  {
    match f
    case MonthlyVisits => i.monthlyVisits
    case CheckoutRate => i.checkoutRate
    case ConversionRate => i.conversionRate
    case ProductPrice => i.productPrice
    case Cac => i.cac
  }

  /** `{ ...prev, [field]: value }`: the named field takes the value, every other keeps its own. */
  function WithField(i: Inputs, f: InputField, v: real): (j: Inputs)
    ensures FieldOf(j, f) == v
    ensures forall g :: g != f ==> FieldOf(j, g) == FieldOf(i, g)
  {
    match f
    case MonthlyVisits => i.(monthlyVisits := v)
    case CheckoutRate => i.(checkoutRate := v)
    case ConversionRate => i.(conversionRate := v)
    case ProductPrice => i.(productPrice := v)
    case Cac => i.(cac := v)
  }

  /** The contact form of the last screen. */
  datatype FormField = Name | Email | Whatsapp
  datatype FormData = FormData(name: string, email: string, whatsapp: string)

  const EmptyForm: FormData := FormData("", "", "")

  /** `formData[field]`: the value the form shows for a contact field. */
  function FormValue(d: FormData, f: FormField): (s: string)
  {
    match f
    case Name => d.name
    case Email => d.email
    case Whatsapp => d.whatsapp
  }

  /** `{ ...formData, [field]: value }` as the three onChange handlers write it. */
  function WithFormValue(d: FormData, f: FormField, v: string): (e: FormData)
    ensures FormValue(e, f) == v
    ensures forall g :: g != f ==> FormValue(e, g) == FormValue(d, g)
  {
    match f
    case Name => d.(name := v)
    case Email => d.(email := v)
    case Whatsapp => d.(whatsapp := v)
  }

  /** JavaScript truthiness of a string: only the empty string is falsy. */
  predicate Truthy(s: string)
  {
    s != ""
  }

  /** The submit button needs all three contact fields filled in. */
  predicate FormComplete(d: FormData)
  {
    Truthy(d.name) && Truthy(d.email) && Truthy(d.whatsapp)
  }

  /** The row the first write inserts: the business numbers and the loss figures. */
  datatype BusinessRecord = BusinessRecord(
    monthlyVisits: real,
    checkoutRate: real,
    conversionRate: real,
    productPrice: real,
    cac: Option<real>,
    monthlyLoss: real,
    annualLoss: real,
    trueValuePerLead: real)

  /** The fields the second write sets on that row; the two timestamps are left out. */
  datatype ContactRecord = ContactRecord(
    name: string,
    email: string,
    whatsapp: string,
    recoveredRevenue: real,
    recoveryRate: real)

  /** One call to the record store, with the answer the store gave. */
  datatype StoreCall =
    | Insert(record: BusinessRecord, returned: Option<string>)
    | Update(id: string, contact: ContactRecord, succeeded: bool)

  /** The two alerts that close the final submit. */
  datatype Notice = Sent | Failed

  /** The payload of the first write. A CAC left at 0 is stored as null
      (`cac || null`), while the loss figures are those the page shows. */
  function BusinessRecordOf(i: Inputs): (r: BusinessRecord)
    ensures r.monthlyVisits == i.monthlyVisits && r.checkoutRate == i.checkoutRate
    ensures r.conversionRate == i.conversionRate && r.productPrice == i.productPrice
    ensures r.cac.None? <==> i.cac == 0.0
    ensures r.cac.Some? ==> r.cac.value == i.cac
    ensures r.monthlyLoss == Calculate(i).monthlyLoss
    ensures r.annualLoss == MonthsPerYear * r.monthlyLoss
    ensures r.trueValuePerLead == r.productPrice
  {
    var c := Calculate(i);
    BusinessRecord(
      i.monthlyVisits, i.checkoutRate, i.conversionRate, i.productPrice,
      if i.cac != 0.0 then Some(i.cac) else None,
      c.monthlyLoss, c.annualLoss, c.trueValuePerLead)
  }

  /** The payload of the second write: the contact fields as typed, the rate,
      and the revenue that rate wins back from the monthly loss stored by the
      first write. */
  function ContactRecordOf(d: FormData, i: Inputs, recoveryRate: real): (r: ContactRecord)
    ensures r.name == d.name && r.email == d.email && r.whatsapp == d.whatsapp
    ensures r.recoveryRate == recoveryRate
    ensures r.recoveredRevenue == RecoveredRevenue(BusinessRecordOf(i).monthlyLoss, recoveryRate)
    ensures MinRecoveryRate <= recoveryRate <= MaxRecoveryRate && BusinessRecordOf(i).monthlyLoss > 0.0 ==>
              0.0 < r.recoveredRevenue < BusinessRecordOf(i).monthlyLoss
  {
    ContactRecord(d.name, d.email, d.whatsapp,
                  RecoveredRevenue(Calculate(i).monthlyLoss, recoveryRate), recoveryRate)
  }

  /** Typing the fallback CAC by hand changes no figure on screen (see
      Metrics.ExplicitFallbackCacChangesNothing), but it does change the
      stored row: its cac column is no longer null. */
  lemma ExplicitFallbackCacIsStored(i: Inputs)
    requires i.cac == 0.0 && i.productPrice != 0.0
    ensures var j := i.(cac := i.productPrice * CacFallbackShare);
            BusinessRecordOf(j) == BusinessRecordOf(i).(cac := Some(i.productPrice * CacFallbackShare))
  {
    var j := i.(cac := i.productPrice * CacFallbackShare);
    assert Calculate(j) == Calculate(i);
  }

  /** The revenue-audit page: one visitor's pass through the funnel. */
  class RevenueAudit {
    var step: nat
    var inputs: Inputs
    var recoveryRate: real
    var formData: FormData
    var leadId: Option<string>
    var isSubmitting: bool
    /** Every record-store call made so far, oldest first. */
    ghost var storeLog: seq<StoreCall>

    /** Between two handlers: the step is on a screen, the slider in range,
        no submit in flight; past screen 1 the inputs passed its gate;
        nothing was written before step 2; the first call is the insert of
        the current inputs, and every later one an update of the id that
        insert returned, which is the stored lead id, carrying a slider rate
        and the revenue that rate wins back from the inserted monthly loss. */
    ghost predicate Valid()
      reads this
    {
      && step <= FinalStep
      && MinRecoveryRate <= recoveryRate <= MaxRecoveryRate
      && !isSubmitting
      && (step >= 2 ==> InputsComplete(inputs))
      && (step <= 1 <==> storeLog == [])
      && (storeLog != [] ==> storeLog[0].Insert? && storeLog[0].record == BusinessRecordOf(inputs))
      && (leadId.Some? ==> storeLog != [] && storeLog[0].returned == leadId && Truthy(leadId.value))
      && (forall k :: 0 < k < |storeLog| ==> storeLog[k].Update? && leadId == Some(storeLog[k].id))
      && (forall k :: 0 < k < |storeLog| ==>
            && MinRecoveryRate <= storeLog[k].contact.recoveryRate <= MaxRecoveryRate
            && storeLog[k].contact.recoveredRevenue ==
                 RecoveredRevenue(storeLog[0].record.monthlyLoss, storeLog[k].contact.recoveryRate))
    }

    /** A continue button is on screens 0 to 5; the one on screen 1 is
        disabled until price, visits and checkout rate are non-zero. */
    predicate CanContinue()
      reads this
      ensures CanContinue() ==> step + 1 <= FinalStep
      ensures Valid() && CanContinue() ==> InputsComplete(inputs) || step == 0
    {
      step < FinalStep && (step == 1 ==> InputsComplete(inputs))
    }

    /** The submit button is on the last screen, and disabled until the
        form is filled in and while a submit is in flight. */
    predicate CanSubmit()
      reads this
      ensures CanSubmit() ==> var r := ContactRecordOf(formData, inputs, recoveryRate);
                Truthy(r.name) && Truthy(r.email) && Truthy(r.whatsapp)
      ensures Valid() && CanSubmit() ==> storeLog != [] && storeLog[0].Insert?
    {
      step == FinalStep && FormComplete(formData) && !isSubmitting
    }

    constructor ()
      ensures Valid()
      ensures step == 0 && inputs == InitialInputs && recoveryRate == InitialRecoveryRate
      ensures formData == EmptyForm && leadId == None && !isSubmitting && storeLog == []
    {
      step := 0;
      inputs := InitialInputs;
      recoveryRate := InitialRecoveryRate;
      formData := EmptyForm;
      leadId := None;
      isSubmitting := false;
      storeLog := [];
    }

    /** The first write: insert the business numbers; `created` is what the
        store answered (None when it reported an error). */
    method SaveBusinessData(created: Option<string>) returns (id: Option<string>)
      modifies this`storeLog
      ensures storeLog == old(storeLog) + [Insert(BusinessRecordOf(inputs), created)]
      ensures id == created
    {
      storeLog := storeLog + [Insert(BusinessRecordOf(inputs), created)];
      id := created;
    }

    /** Advance one screen. Leaving screen 1 first makes the insert and keeps
        the returned id only when it is truthy; the step advances either way. */
    method NextStep(created: Option<string>)
      requires Valid() && step < FinalStep
      requires step == 1 ==> InputsComplete(inputs)
      modifies this`step, this`leadId, this`storeLog
      ensures Valid()
      ensures step == old(step) + 1
      ensures storeLog == old(storeLog) + (if old(step) == 1 then [Insert(BusinessRecordOf(inputs), created)] else [])
      ensures leadId == (if old(step) == 1 && created.Some? && Truthy(created.value) then created else old(leadId))
    {
      if step == 1 {
        var id := SaveBusinessData(created);
        if id.Some? && Truthy(id.value) {
          leadId := id;
        }
      }
      step := step + 1;
    }

    /** A click on the continue button of the current screen: NextStep when
        the button is there and enabled, nothing otherwise. */
    method Continue(created: Option<string>) returns (advanced: bool)
      requires Valid()
      modifies this`step, this`leadId, this`storeLog
      ensures Valid()
      ensures advanced == old(CanContinue())
      ensures step == old(step) + (if advanced then 1 else 0)
      ensures storeLog == old(storeLog) + (if advanced && old(step) == 1 then [Insert(BusinessRecordOf(inputs), created)] else [])
      ensures leadId == (if advanced && old(step) == 1 && created.Some? && Truthy(created.value) then created else old(leadId))
    {
      advanced := CanContinue();
      if advanced {
        NextStep(created);
      }
    }

    /** Store a new value in one field of the input record; the fields are on screen 1 only. */
    method UpdateInput(field: InputField, value: real)
      requires Valid() && step == 1
      modifies this`inputs
      ensures Valid()
      ensures inputs == WithField(old(inputs), field, value)
    {
      inputs := WithField(inputs, field, value);
    }

    /** Store a new value in one field of the contact form, on the last screen. */
    method UpdateFormField(field: FormField, value: string)
      requires Valid() && step == FinalStep
      modifies this`formData
      ensures Valid()
      ensures formData == WithFormValue(old(formData), field, value)
    {
      formData := WithFormValue(formData, field, value);
    }

    /** Move the recovery-rate slider of screen 4, which only offers values from 5 to 30. */
    method SetRecoveryRate(value: real)
      requires Valid() && step == 4
      requires MinRecoveryRate <= value <= MaxRecoveryRate
      modifies this`recoveryRate
      ensures Valid() && recoveryRate == value
    {
      recoveryRate := value;
    }

    /** The second write: refused without a truthy lead id, in which case the
        store is not called; otherwise update that row and report the store's answer. */
    method SavePersonalData(updated: bool) returns (ok: bool)
      modifies this`storeLog
      ensures leadId.Some? && Truthy(leadId.value) ==>
                ok == updated &&
                storeLog == old(storeLog) + [Update(leadId.value, ContactRecordOf(formData, inputs, recoveryRate), updated)]
      ensures !(leadId.Some? && Truthy(leadId.value)) ==> !ok && storeLog == old(storeLog)
    {
      if !(leadId.Some? && Truthy(leadId.value)) {
        return false;
      }
      storeLog := storeLog + [Update(leadId.value, ContactRecordOf(formData, inputs, recoveryRate), updated)];
      ok := updated;
    }

    /** The submit handler: raise the submitting flag, make the second write,
        lower the flag, and pick the alert from the outcome. */
    method HandleFinalSubmit(updated: bool) returns (notice: Notice)
      requires Valid()
      modifies this`isSubmitting, this`storeLog
      ensures Valid() && !isSubmitting
      ensures storeLog == old(storeLog) + (if leadId.Some? then [Update(leadId.value, ContactRecordOf(formData, inputs, recoveryRate), updated)] else [])
      ensures notice == (if leadId.Some? && updated then Sent else Failed)
      ensures leadId.Some? ==>
                storeLog[|storeLog| - 1].contact.recoveredRevenue ==
                RecoveredRevenue(storeLog[0].record.monthlyLoss, recoveryRate)
    {
      isSubmitting := true;
      var ok := SavePersonalData(updated);
      isSubmitting := false;
      notice := if ok then Sent else Failed;
    }

    /** A click on the submit button: HandleFinalSubmit when the button is
        there and enabled, nothing otherwise. */
    method Submit(updated: bool) returns (notice: Option<Notice>)
      requires Valid()
      modifies this`isSubmitting, this`storeLog
      ensures Valid() && !isSubmitting
      ensures notice.Some? <==> old(CanSubmit())
      ensures notice.Some? ==>
                notice.value == (if leadId.Some? && updated then Sent else Failed) &&
                storeLog == old(storeLog) + (if leadId.Some? then [Update(leadId.value, ContactRecordOf(formData, inputs, recoveryRate), updated)] else [])
      ensures notice.Some? && leadId.Some? ==>
                storeLog[|storeLog| - 1].contact.recoveredRevenue ==
                RecoveredRevenue(storeLog[0].record.monthlyLoss, recoveryRate)
      ensures notice.None? ==> storeLog == old(storeLog)
    {
      if CanSubmit() {
        var n := HandleFinalSubmit(updated);
        notice := Some(n);
      } else {
        notice := None;
      }
    }
  }

  /** On every screen after the first gate, the lost-sales count of screen 2
      and the equivalent-leads count of screen 4 are finite numbers. */
  lemma ResultScreensShowFiniteCounts(a: RevenueAudit)
    requires a.Valid() && a.step >= 2
    ensures LostSalesCount(a.inputs).Some?
    ensures NewLeadsEquivalent(a.inputs, a.recoveryRate).Some?
  {
  }

  /** When the insert did not return a truthy id, no lead id is kept and the
      update is never attempted, however often the visitor submits. */
  lemma FailedInsertBlocksUpdate(a: RevenueAudit)
    requires a.Valid()
    requires a.storeLog != [] && !(a.storeLog[0].returned.Some? && Truthy(a.storeLog[0].returned.value))
    ensures a.leadId == None
    ensures forall k :: 0 <= k < |a.storeLog| ==> !a.storeLog[k].Update?
  {
  }
}
