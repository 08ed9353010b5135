/**
 * The form-modal provider: the modal's visibility, the success panel, the remount key of the
 * embedded form, and the message handler that turns a vendor message into a conversion.
 */
module FormModal {
  import opened Text
  import opened Dom
  import opened Messages
  import GoogleTag
  import FormEmbed

  /**
   * The provider's gate: a message goes on to classification unless it is not from the form
   * while the modal is visible. With the modal hidden every origin passes.
   */
  predicate PassesGate(origin: string, p: Payload, modalVisible: bool) {
    !(!IsFromForm(origin, p) && modalVisible)
  }

  /** The handler calls `handleFormSuccess` for this message. */
  predicate Triggers(origin: string, p: Payload, modalVisible: bool, parse: Parser) {
    PassesGate(origin, p, modalVisible) && IsSubmission(p, parse)
  }

  /**
   * The gate drops a message exactly when its origin names neither vendor host, its payload
   * carries no matching form id, and the modal is visible.
   */
  lemma GateDropsIff(origin: string, p: Payload, modalVisible: bool)
    ensures !PassesGate(origin, p, modalVisible) <==>
      (!Contains(origin, LeadConnectorHost) && !Contains(origin, MsgsndrHost) &&
       !(p.Obj? && FieldIs(p.fields, "formId", FormId)) && modalVisible)
  {
  }

  /** While the modal is hidden, a message from any origin is classified on its payload alone. */
  lemma HiddenModalClassifiesAnyOrigin(origin: string, p: Payload, parse: Parser)
    ensures Triggers(origin, p, false, parse) == IsSubmission(p, parse)
  {
  }

  /** While the modal is visible, a foreign message without the form id never triggers. */
  lemma VisibleModalDropsForeign(origin: string, p: Payload, parse: Parser)
    requires !IsFromForm(origin, p)
    ensures !Triggers(origin, p, true, parse)
  {
  }

  /**
   * The file calls `loadGoogleTag` in `handleFormSuccess` without importing it, so as written
   * a success with the panel down throws a ReferenceError before the panel flag is set.
   * `Provider.HandleFormSuccess` models the intended call to the library loader.
   */
  datatype SuccessOutcome = Ignored | ThrowsReferenceError | PanelShown

  function HandleFormSuccessAsWritten(showFormSuccess: bool): SuccessOutcome {
    if showFormSuccess then Ignored else ThrowsReferenceError
  }

  /** What the provider's state change can be, from the user's and the timers' side. */
  datatype Event = OpenModal | CloseModal | FormSuccess | RevertFires

  /**
   * The provider's success state as the file is written: the `showFormSuccess` flag, the
   * `formKey` counter and the number of scheduled reverts that have not fired yet.
   */
  datatype AsWrittenState = AsWrittenState(flag: bool, formKey: int, pendingReverts: nat)

  /** One event applied to the as-written state. */
  function StepAsWritten(st: AsWrittenState, e: Event): AsWrittenState {
    match e
    case OpenModal => st.(flag := false)
    case CloseModal => st.(flag := false)
    case FormSuccess =>
      if HandleFormSuccessAsWritten(st.flag) == PanelShown
      then st.(flag := true, pendingReverts := st.pendingReverts + 1)
      else st
    case RevertFires =>
      if st.pendingReverts > 0
      then AsWrittenState(false, st.formKey + 1, st.pendingReverts - 1)
      else st
  }

  /** The as-written state after a run of events. */
  function RunAsWritten(st: AsWrittenState, events: seq<Event>): AsWrittenState
    decreases |events|
  {
    if events == [] then st
    else RunAsWritten(StepAsWritten(st, events[0]), events[1..])
  }

  /**
   * As written, from the mounted state no run of events ever sets the success flag,
   * schedules a revert or changes `formKey`.
   */
  lemma {:induction false} AsWrittenPanelNeverShows(events: seq<Event>)
    ensures RunAsWritten(AsWrittenState(false, 0, 0), events) == AsWrittenState(false, 0, 0)
    decreases |events|
  {
    if events != [] {
      assert StepAsWritten(AsWrittenState(false, 0, 0), events[0]) == AsWrittenState(false, 0, 0);
      AsWrittenPanelNeverShows(events[1..]);
    }
  }

  /** The first submission after mount throws instead of loading the tag. */
  lemma AsWrittenFirstSuccessThrows()
    ensures HandleFormSuccessAsWritten(false) == ThrowsReferenceError
  {
  }

  class Provider {
    /** `showBookingModal`: the modal is on screen. */
    var showBookingModal: bool
    /** `showFormSuccess`: the confirmation panel covers the form. */
    var showFormSuccess: bool
    /** `formKey`: the key of the form iframe; a new value remounts it. */
    var formKey: int
    /** Revert timers scheduled by `handleFormSuccess` that have not fired yet. */
    var pendingReverts: nat

    /** The provider's initial state. */
    constructor ()
      ensures !showBookingModal && !showFormSuccess && formKey == 0 && pendingReverts == 0
    {
      showBookingModal, showFormSuccess, formKey, pendingReverts := false, false, 0, 0;
    }

    /** The mount effect that loads the vendor's embed script once. */
    method Mount(page: Page)
      modifies page`scripts
      ensures page.scripts == FormEmbed.ScriptsAfterEmbed(old(page.scripts))
    {
      FormEmbed.LoadEmbedScript(page);
    }

    /** `openFormModal`: show the modal on its form view and lock page scroll, from any state. */
    method OpenFormModal(page: Page)
      modifies this, page`bodyOverflow
      ensures showBookingModal && !showFormSuccess
      ensures formKey == old(formKey) && pendingReverts == old(pendingReverts)
      ensures page.bodyOverflow == Hidden
    {
      showBookingModal := true;
      showFormSuccess := false;
      page.SetBodyOverflow(Hidden);
    }

    /** `closeFormModal`: hide the modal, clear the success flag and release page scroll. */
    method CloseFormModal(page: Page)
      modifies this, page`bodyOverflow
      ensures !showBookingModal && !showFormSuccess
      ensures formKey == old(formKey) && pendingReverts == old(pendingReverts)
      ensures page.bodyOverflow == Unset
    {
      showBookingModal := false;
      showFormSuccess := false;
      page.SetBodyOverflow(Unset);
    }

    /**
     * `handleFormSuccess`: ignored while the success panel is up; otherwise load the conversion
     * tag once, show the panel and schedule the revert. `fired` says whether the tag was loaded.
     */
    method HandleFormSuccess(page: Page, now: int) returns (fired: bool)
      modifies this, page
      ensures fired == !old(showFormSuccess)
      ensures !fired ==> unchanged(this) && unchanged(page)
      ensures fired ==> showFormSuccess && pendingReverts == old(pendingReverts) + 1
      ensures fired ==> page.scripts == GoogleTag.ScriptsAfterLoad(old(page.scripts))
      ensures fired ==> page.dataLayer == GoogleTag.DataLayerAfterLoad(old(page.scripts), old(page.dataLayer), now)
      ensures fired ==> page.gtagInstalled == GoogleTag.GtagInstalledAfterLoad(old(page.scripts), old(page.gtagInstalled))
      ensures showBookingModal == old(showBookingModal) && formKey == old(formKey)
      ensures page.bodyOverflow == old(page.bodyOverflow)
    {
      fired := !showFormSuccess;
      if fired {
        GoogleTag.LoadGoogleTag(page, now);
        showFormSuccess := true;
        pendingReverts := pendingReverts + 1;
      }
    }

    /**
     * One pending revert timer fires: the panel goes and the form is remounted under a key one
     * higher. The timer is not cancelled by closing the modal, so this may run after a close.
     */
    method RevertTimerFires()
      requires pendingReverts > 0
      modifies this
      ensures !showFormSuccess && formKey == old(formKey) + 1
      ensures showBookingModal == old(showBookingModal) && pendingReverts == old(pendingReverts) - 1
    {
      showFormSuccess := false;
      formKey := formKey + 1;
      pendingReverts := pendingReverts - 1;
    }

    /** `handleMessage`: gate, classify, and on a positive verdict run `handleFormSuccess`. */
    method HandleMessage(origin: string, p: Payload, parse: Parser, page: Page, now: int) returns (fired: bool)
      modifies this, page
      ensures fired == (Triggers(origin, p, old(showBookingModal), parse) && !old(showFormSuccess))
      ensures !fired ==> unchanged(this) && unchanged(page)
      ensures fired ==> showFormSuccess && pendingReverts == old(pendingReverts) + 1
      ensures fired ==> page.scripts == GoogleTag.ScriptsAfterLoad(old(page.scripts))
      ensures fired ==> page.dataLayer == GoogleTag.DataLayerAfterLoad(old(page.scripts), old(page.dataLayer), now)
      ensures fired ==> page.gtagInstalled == GoogleTag.GtagInstalledAfterLoad(old(page.scripts), old(page.gtagInstalled))
      ensures page.bodyOverflow == old(page.bodyOverflow)
      ensures showBookingModal == old(showBookingModal) && formKey == old(formKey)
    {
      fired := false;
      if !PassesGate(origin, p, showBookingModal) {
        return;
      }
      if IsSubmission(p, parse) {
        fired := HandleFormSuccess(page, now);
      }
    }
  }

  /**
   * Two successes in a row load the tag at most once: exactly once from the form view,
   * never from the success view.
   */
  method TwoSuccesses(m: Provider, page: Page, now1: int, now2: int) returns (loads: nat)
    modifies m, page
    ensures loads == if old(m.showFormSuccess) then 0 else 1
    ensures m.showFormSuccess && m.formKey == old(m.formKey)
  {
    var first := m.HandleFormSuccess(page, now1);
    var second := m.HandleFormSuccess(page, now2);
    loads := (if first then 1 else 0) + (if second then 1 else 0);
  }
}
