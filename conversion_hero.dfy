/**
 * The conversion-optimized hero section: the same lead-form rules as the elite hero with two
 * different messages, a submit handler without a guard against repeated submits, and the
 * choice between the form and its confirmation panel.
 */
module ConversionHero {
  import opened Text
  import opened Dom
  import opened LeadForm
  import GoogleTag
  import EliteHero

  /** The values of the investment-range select; the first is the placeholder. */
  const InvestmentOptions: seq<string> := ["", "500k-1m", "1m-2m", "2m-5m", "5m+"]
  /** The values of the jurisdiction select; the first is the placeholder. */
  const ProjectOptions: seq<string> := ["", "abu-dhabi", "dubai", "both"]

  /** The messages this form shows, one per error key. */
  ghost predicate Reports(f: FormData, e: map<Field, Message>) {
    e.Keys == ErrorKeys(f) &&
    (Name in e ==> e[Name] == FullNameRequired) &&
    (Whatsapp in e ==> e[Whatsapp] == WhatsAppRequired) &&
    (Email in e ==> e[Email] == (if AllWhitespace(f.email) then EmailRequired else InvalidEmailFormat)) &&
    (InvestmentRange in e ==> e[InvestmentRange] == InvestmentRangeRequired) &&
    (PreferredProject in e ==> e[PreferredProject] == ProjectPreferenceRequired)
  }

  /** The body of `validateForm`: fill the errors dictionary field by field. */
  method BuildErrors(f: FormData) returns (newErrors: map<Field, Message>)
    ensures Reports(f, newErrors)
    ensures newErrors == map[] <==> ErrorKeys(f) == {}
  {
    newErrors := map[];
    if Trim(f.name) == "" { newErrors := newErrors[Name := FullNameRequired]; }
    if Trim(f.whatsapp) == "" { newErrors := newErrors[Whatsapp := WhatsAppRequired]; }
    if Trim(f.email) == "" { newErrors := newErrors[Email := EmailRequired]; }
    else if !RegexTest(f.email) { newErrors := newErrors[Email := InvalidEmailFormat]; }
    if f.investmentRange == "" { newErrors := newErrors[InvestmentRange := InvestmentRangeRequired]; }
    if f.preferredProject == "" { newErrors := newErrors[PreferredProject := ProjectPreferenceRequired]; }
    KeysFollowRules(f, newErrors);
  }

  /**
   * For the same input the two hero validators report the same keys with the same messages,
   * except for the two select messages, which differ.
   */
  lemma SameKeysAsElite(f: FormData, elite: map<Field, Message>, mine: map<Field, Message>)
    requires EliteHero.Reports(f, elite) && Reports(f, mine)
    ensures elite.Keys == mine.Keys
    ensures forall k :: k in elite && k != InvestmentRange && k != PreferredProject ==> elite[k] == mine[k]
    ensures InvestmentRange in elite ==> MessageText(elite[InvestmentRange]) != MessageText(mine[InvestmentRange])
    ensures PreferredProject in elite ==> MessageText(elite[PreferredProject]) != MessageText(mine[PreferredProject])
  {
    forall k | k in elite && k != InvestmentRange && k != PreferredProject ensures elite[k] == mine[k] {
      match k
      case Name =>
      case Whatsapp =>
      case Email =>
    }
    if InvestmentRange in elite {
      assert MessageText(elite[InvestmentRange])[11] != MessageText(mine[InvestmentRange])[11];
    }
    if PreferredProject in elite {
      assert |MessageText(elite[PreferredProject])| != |MessageText(mine[PreferredProject])|;
    }
  }

  /** Every option other than the placeholder satisfies its select's required check. */
  lemma OnlyPlaceholderFails(f: FormData, i: nat, j: nat)
    requires i < |InvestmentOptions| && j < |ProjectOptions|
    ensures var g := f.(investmentRange := InvestmentOptions[i], preferredProject := ProjectOptions[j]);
            (InvestmentRange in ErrorKeys(g) <==> i == 0) && (PreferredProject in ErrorKeys(g) <==> j == 0)
  {
    var g := f.(investmentRange := InvestmentOptions[i], preferredProject := ProjectOptions[j]);
    ErrorKeysIff(g);
  }

  /** What the form card shows. */
  datatype View = FormView | Confirmation

  /**
   * The outcome of a submit as the file is written: `loadGoogleTag` is called but never
   * imported, so a valid submit throws a ReferenceError after publishing the (empty) errors
   * and before `showSuccess` or the form data change.
   */
  datatype SubmitOutcome = Rejected | ThrowsReferenceError | Confirmed

  ghost function SubmitAsWritten(f: FormData): SubmitOutcome {
    if ErrorKeys(f) != {} then Rejected else ThrowsReferenceError
  }

  /** As written, no submit ever reaches the confirmation panel; a valid one throws instead. */
  lemma AsWrittenNeverConfirms(f: FormData)
    ensures SubmitAsWritten(f) != Confirmed
    ensures SubmitAsWritten(f) == ThrowsReferenceError <==> ErrorKeys(f) == {}
  {
  }

  /** A concrete valid form that, as written, throws instead of confirming. */
  lemma AsWrittenValidFormThrows()
    ensures SubmitAsWritten(FormData("A", "1", "a@b.c", "1m-2m", "dubai")) == ThrowsReferenceError
  {
    SampleFormIsValid();
  }

  class Hero {
    var formData: FormData
    var showSuccess: bool
    var errors: map<Field, Message>
    /** Success timers scheduled by a valid submit that have not fired yet. */
    var pendingSuccessTimers: nat

    /** The initial state: an empty form, no errors, the form view. */
    constructor ()
      ensures formData == EmptyForm && !showSuccess && errors == map[] && pendingSuccessTimers == 0
    {
      formData := EmptyForm;
      showSuccess := false;
      errors := map[];
      pendingSuccessTimers := 0;
    }

    /** The card shows the confirmation panel exactly while `showSuccess` holds. */
    function Panel(): (v: View)
      reads this
      ensures v == Confirmation <==> showSuccess
    {
      if showSuccess then Confirmation else FormView
    }

    /** An input's `onChange`: replace one field's value, keep the others. */
    method EditField(field: Field, value: string)
      modifies this`formData
      ensures formData == match field
        case Name => old(formData).(name := value)
        case Whatsapp => old(formData).(whatsapp := value)
        case Email => old(formData).(email := value)
        case InvestmentRange => old(formData).(investmentRange := value)
        case PreferredProject => old(formData).(preferredProject := value)
    {
      match field
      case Name => formData := formData.(name := value);
      case Whatsapp => formData := formData.(whatsapp := value);
      case Email => formData := formData.(email := value);
      case InvestmentRange => formData := formData.(investmentRange := value);
      case PreferredProject => formData := formData.(preferredProject := value);
    }

    /** `validateForm`: publish the errors for the current form; valid iff there are none. */
    method ValidateForm() returns (valid: bool)
      modifies this`errors
      ensures Reports(formData, errors)
      ensures valid <==> errors == map[]
      ensures valid <==> ErrorKeys(formData) == {}
    {
      var newErrors := BuildErrors(formData);
      errors := newErrors;
      valid := errors == map[];
    }

    /**
     * `handleSubmit`, with the loader it calls taken to be the library's `loadGoogleTag`:
     * an invalid form only updates `errors`; a valid one loads the tag, shows the
     * confirmation and resets every field, however often it is submitted.
     */
    method HandleSubmit(page: Page, now: int) returns (valid: bool)
      modifies this, page
      ensures Reports(old(formData), errors)
      ensures valid <==> ErrorKeys(old(formData)) == {}
      ensures !valid ==> formData == old(formData) && showSuccess == old(showSuccess)
      ensures !valid ==> pendingSuccessTimers == old(pendingSuccessTimers) && unchanged(page)
      ensures valid ==> showSuccess && Panel() == Confirmation && formData == EmptyForm
      ensures valid ==> pendingSuccessTimers == old(pendingSuccessTimers) + 1
      ensures valid ==> page.scripts == GoogleTag.ScriptsAfterLoad(old(page.scripts))
      ensures valid ==> page.dataLayer == GoogleTag.DataLayerAfterLoad(old(page.scripts), old(page.dataLayer), now)
      ensures valid ==> page.gtagInstalled == GoogleTag.GtagInstalledAfterLoad(old(page.scripts), old(page.gtagInstalled))
      ensures page.bodyOverflow == old(page.bodyOverflow)
    {
      valid := ValidateForm();
      if valid {
        GoogleTag.LoadGoogleTag(page, now);
        showSuccess := true;
        pendingSuccessTimers := pendingSuccessTimers + 1;
        formData := EmptyForm;
      }
    }

    /** A pending success timer fires and brings the form view back. */
    method SuccessTimerFires()
      requires pendingSuccessTimers > 0
      modifies this
      ensures !showSuccess && Panel() == FormView
      ensures pendingSuccessTimers == old(pendingSuccessTimers) - 1
      ensures formData == old(formData) && errors == old(errors)
    {
      showSuccess := false;
      pendingSuccessTimers := pendingSuccessTimers - 1;
    }
  }
}
