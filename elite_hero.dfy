/** The elite hero section: its lead-form validator and submit handler, and its rotating slides. */
module EliteHero {
  import opened Text
  import opened Dom
  import opened LeadForm
  import GoogleTag

  /** The number of hero slides. */
  const SlideCount: nat := 4

  /** The messages this form shows, one per error key. */
  ghost predicate Reports(f: FormData, e: map<Field, Message>) {
    e.Keys == ErrorKeys(f) &&
    (Name in e ==> e[Name] == FullNameRequired) &&
    (Whatsapp in e ==> e[Whatsapp] == WhatsAppRequired) &&
    (Email in e ==> e[Email] == (if AllWhitespace(f.email) then EmailRequired else InvalidEmailFormat)) &&
    (InvestmentRange in e ==> e[InvestmentRange] == InvestmentCapacityRequired) &&
    (PreferredProject in e ==> e[PreferredProject] == PropertyInterestRequired)
  }

  /** The body of `validateForm`: fill the errors dictionary field by field. */
  method BuildErrors(f: FormData) returns (newErrors: map<Field, Message>)
    ensures Reports(f, newErrors)
    ensures newErrors == map[] <==> ErrorKeys(f) == {}
  {
    newErrors := map[];
    if Trim(f.name) == "" { newErrors := newErrors[Name := FullNameRequired]; }
    if Trim(f.whatsapp) == "" { newErrors := newErrors[Whatsapp := WhatsAppRequired]; }
    if Trim(f.email) == "" { newErrors := newErrors[Email := EmailRequired]; }
    else if !RegexTest(f.email) { newErrors := newErrors[Email := InvalidEmailFormat]; }
    if f.investmentRange == "" { newErrors := newErrors[InvestmentRange := InvestmentCapacityRequired]; }
    if f.preferredProject == "" { newErrors := newErrors[PreferredProject := PropertyInterestRequired]; }
    KeysFollowRules(f, newErrors);
  }

  /** The slide after `i` in the rotation: the next one, wrapping from the last to the first. */
  function NextSlide(i: int): (r: int)
    requires 0 <= i < SlideCount
    ensures 0 <= r < SlideCount
    ensures r == if i == SlideCount - 1 then 0 else i + 1
  {
    (i + 1) % SlideCount
  }

  /** Four rotations bring every slide back. */
  lemma RotationCycles(i: int)
    requires 0 <= i < SlideCount
    ensures NextSlide(NextSlide(NextSlide(NextSlide(i)))) == i
  {
  }

  class Hero {
    var formData: FormData
    var showSuccess: bool
    var errors: map<Field, Message>
    var currentSlide: int
    /** Success timers scheduled by a valid submit that have not fired yet. */
    var pendingSuccessTimers: nat

    ghost predicate Valid()
      reads this
    {
      0 <= currentSlide < SlideCount
    }

    /** The initial state: an empty form, no errors, the first slide. */
    constructor ()
      ensures Valid() && formData == EmptyForm && !showSuccess && errors == map[]
      ensures currentSlide == 0 && pendingSuccessTimers == 0
    {
      formData := EmptyForm;
      showSuccess := false;
      errors := map[];
      currentSlide := 0;
      pendingSuccessTimers := 0;
    }

    /** `validateForm`: publish the errors for the current form; valid iff there are none. */
    method ValidateForm() returns (valid: bool)
      modifies this`errors
      ensures Reports(formData, errors)
      ensures valid <==> errors == map[]
      ensures valid <==> ErrorKeys(formData) == {}
    {
      var newErrors := BuildErrors(formData);
      errors := newErrors;
      valid := errors == map[];
    }

    /**
     * `handleSubmit`: an invalid form only updates `errors`; a valid one loads the conversion
     * tag, shows the success panel, schedules its timer and resets every field.
     */
    method HandleSubmit(page: Page, now: int) returns (valid: bool)
      requires Valid()
      modifies this, page
      ensures Valid() && currentSlide == old(currentSlide)
      ensures Reports(old(formData), errors)
      ensures valid <==> ErrorKeys(old(formData)) == {}
      ensures !valid ==> formData == old(formData) && showSuccess == old(showSuccess)
      ensures !valid ==> pendingSuccessTimers == old(pendingSuccessTimers) && unchanged(page)
      ensures valid ==> showSuccess && formData == EmptyForm && pendingSuccessTimers == old(pendingSuccessTimers) + 1
      ensures valid ==> page.scripts == GoogleTag.ScriptsAfterLoad(old(page.scripts))
      ensures valid ==> page.dataLayer == GoogleTag.DataLayerAfterLoad(old(page.scripts), old(page.dataLayer), now)
      ensures valid ==> page.gtagInstalled == GoogleTag.GtagInstalledAfterLoad(old(page.scripts), old(page.gtagInstalled))
      ensures page.bodyOverflow == old(page.bodyOverflow)
    {
      valid := ValidateForm();
      if valid {
        GoogleTag.LoadGoogleTag(page, now);
        showSuccess := true;
        pendingSuccessTimers := pendingSuccessTimers + 1;
        formData := EmptyForm;
      }
    }

    /** A pending success timer fires and hides the success panel. */
    method SuccessTimerFires()
      requires pendingSuccessTimers > 0
      modifies this
      ensures !showSuccess && pendingSuccessTimers == old(pendingSuccessTimers) - 1
      ensures formData == old(formData) && errors == old(errors) && currentSlide == old(currentSlide)
    {
      showSuccess := false;
      pendingSuccessTimers := pendingSuccessTimers - 1;
    }

    /** The five-second rotation interval fires. */
    method RotateSlide()
      requires Valid()
      modifies this`currentSlide
      ensures Valid() && currentSlide == NextSlide(old(currentSlide))
    {
      currentSlide := (currentSlide + 1) % SlideCount;
    }

    /** A slide indicator is clicked. */
    method GoToSlide(index: int)
      requires 0 <= index < SlideCount
      modifies this`currentSlide
      ensures Valid() && currentSlide == index
    {
      currentSlide := index;
    }
  }
}
