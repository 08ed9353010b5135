/**
 * The mobile form section: the same embed guard and the same payload classification as the
 * form-modal provider, behind a gate that admits only messages from the form, and with the
 * conversion-tag load as its only effect.
 */
module MobileForm {
  import opened Text
  import opened Dom
  import opened Messages
  import GoogleTag
  import FormEmbed
  import FormModal

  /** The section's handler loads the tag for this message: from the form, and a submission. */
  predicate ShouldLoadTag(origin: string, p: Payload, parse: Parser) {
    IsFromForm(origin, p) && IsSubmission(p, parse)
  }

  /** A message not from the form never loads the tag, whatever its payload. */
  lemma ForeignNeverLoads(origin: string, p: Payload, parse: Parser)
    requires !Contains(origin, LeadConnectorHost) && !Contains(origin, MsgsndrHost)
    requires !(p.Obj? && FieldIs(p.fields, "formId", FormId))
    ensures !ShouldLoadTag(origin, p, parse)
  {
  }

  /** A string has no `formId`, so a string from a foreign origin is always dropped. */
  lemma ForeignStringDropped(origin: string, s: string, parse: Parser)
    requires !Contains(origin, LeadConnectorHost) && !Contains(origin, MsgsndrHost)
    ensures !ShouldLoadTag(origin, Str(s), parse)
  {
  }

  /** The two documented strings load the tag when they come from a vendor origin. */
  lemma DocumentedStringsLoad(origin: string, parse: Parser)
    requires Contains(origin, LeadConnectorHost) || Contains(origin, MsgsndrHost)
    requires parse("{\"event\":\"form-submitted\"}") == ParsedObj(map["event" := JString("form-submitted")])
    requires parse("FORM-SUBMITTED ok") == ParseFail
    ensures ShouldLoadTag(origin, Str("{\"event\":\"form-submitted\"}"), parse)
    ensures ShouldLoadTag(origin, Str("FORM-SUBMITTED ok"), parse)
  {
    ParsedExample(parse);
    FallbackExample(parse);
  }

  /**
   * Past the gates the two handlers classify alike: for a message from the form the section
   * loads the tag exactly when the provider would run its success handling, whatever the modal
   * shows; and with the modal visible the two gates coincide on every message.
   */
  lemma AgreesWithProvider(origin: string, p: Payload, modalVisible: bool, parse: Parser)
    ensures IsFromForm(origin, p) ==> (ShouldLoadTag(origin, p, parse) == FormModal.Triggers(origin, p, modalVisible, parse))
    ensures ShouldLoadTag(origin, p, parse) == FormModal.Triggers(origin, p, true, parse)
  {
  }

  /** The section's gate is the stricter: whatever it accepts the provider accepts too. */
  lemma StricterThanProvider(origin: string, p: Payload, modalVisible: bool, parse: Parser)
    requires ShouldLoadTag(origin, p, parse)
    ensures FormModal.Triggers(origin, p, modalVisible, parse)
  {
  }

  /** The mount effect that loads the vendor's embed script once. */
  method Mount(page: Page)
    modifies page`scripts
    ensures page.scripts == FormEmbed.ScriptsAfterEmbed(old(page.scripts))
  {
    FormEmbed.LoadEmbedScript(page);
  }

  /**
   * `handleMessage`: when the message is from the form and reports a submission, call the
   * conversion-tag loader; nothing else on the page changes either way.
   */
  method HandleMessage(origin: string, p: Payload, parse: Parser, page: Page, now: int) returns (loaded: bool)
    modifies page
    ensures loaded == ShouldLoadTag(origin, p, parse)
    ensures !loaded ==> unchanged(page)
    ensures loaded ==> page.scripts == GoogleTag.ScriptsAfterLoad(old(page.scripts))
    ensures loaded ==> page.dataLayer == GoogleTag.DataLayerAfterLoad(old(page.scripts), old(page.dataLayer), now)
    ensures loaded ==> page.gtagInstalled == GoogleTag.GtagInstalledAfterLoad(old(page.scripts), old(page.gtagInstalled))
    ensures page.bodyOverflow == old(page.bodyOverflow)
  {
    loaded := false;
    if !IsFromForm(origin, p) {
      return;
    }
    if IsSubmission(p, parse) {
      GoogleTag.LoadGoogleTag(page, now);
      loaded := true;
    }
  }
}
