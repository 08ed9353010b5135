/**
 * The cross-frame message classifier shared, line for line, by the form-modal provider and the
 * mobile form section: the "is this from the form" signal, and the payload classification that
 * decides whether a message reports a completed submission.
 */
module Messages {
  import opened Text

  /** A property value as a strict comparison with a string literal sees it. */
  datatype JsonValue = JString(s: string) | JOther

  /**
   * `event.data`: a falsy value (undefined, null, false, 0), a string, an object
   * (its own enumerable properties), or another truthy primitive (a non-zero number, `true`).
   */
  datatype Payload = Falsy | Str(s: string) | Obj(fields: map<string, JsonValue>) | OtherTruthy

  /** What `JSON.parse` does with a string: throw, or return null, a primitive or an object. */
  datatype ParseResult = ParseFail | ParsedNull | ParsedPrimitive | ParsedObj(fields: map<string, JsonValue>)

  /** `JSON.parse`, left uninterpreted: the classifiers take it as a parameter. */
  type Parser = string -> ParseResult

  const LeadConnectorHost: string := "leadconnectorhq.com"
  const MsgsndrHost: string := "msgsndr.com"
  const FormId: string := "7RM5Dr1meRUfG03B13ci"

  /** `obj.key === v`: the property is present and is exactly the string `v`. */
  predicate FieldIs(fields: map<string, JsonValue>, key: string, v: string) {
    key in fields && fields[key] == JString(v)
  }

  /** `event.data?.formId === FormId`; only an object can carry the property. */
  predicate CarriesFormId(p: Payload) {
    p.Obj? && FieldIs(p.fields, "formId", FormId)
  }

  /** `isFromForm`: a vendor host in the origin, or the form id in the payload. */
  predicate IsFromForm(origin: string, p: Payload) {
    Contains(origin, LeadConnectorHost) || Contains(origin, MsgsndrHost) || CarriesFormId(p)
  }

  /** Which branch of the handler a payload takes. */
  datatype Route =
    | Skipped                       // falsy, or truthy but neither a string nor an object
    | ParsedPath(parsed: map<string, JsonValue>)  // a string that `JSON.parse` accepted
    | FallbackPath(raw: string)    // a string whose parse threw, or whose parsed `.type` access threw
    | ObjectPath(fields: map<string, JsonValue>)  // an object payload, inspected directly

  /**
   * The branch taken. A parsed primitive has no `type`, `event`, `action` or `status`
   * property, so it is a parsed value with no fields; a parsed `null` throws on `data.type`
   * inside the `try`, so it reaches the `catch` exactly like a parse failure.
   */
  function RouteOf(p: Payload, parse: Parser): Route {
    match p
    case Falsy => Skipped
    case OtherTruthy => Skipped
    case Obj(f) => ObjectPath(f)
    case Str(s) =>
      if s == "" then Skipped
      else match parse(s)
        case ParsedObj(f) => ParsedPath(f)
        case ParsedPrimitive => ParsedPath(map[])
        case ParsedNull => FallbackPath(s)
        case ParseFail => FallbackPath(s)
  }

  /** The five markers the parsed-string branch accepts. */
  predicate ParsedMarksSubmission(f: map<string, JsonValue>) {
    FieldIs(f, "type", "hsFormCallback") || FieldIs(f, "event", "form-submitted") ||
    FieldIs(f, "action", "submit") || FieldIs(f, "type", "formSubmitted") || FieldIs(f, "status", "success")
  }

  /** The substring patterns the fallback branch looks for in the lowercased raw string. */
  predicate TextMarksSubmission(raw: string) {
    var m := Lower(raw);
    Contains(m, "form-submitted") || Contains(m, "formsubmitted") || (Contains(m, "success") && Contains(m, "form"))
  }

  /** The three markers the object branch accepts. */
  predicate ObjectMarksSubmission(f: map<string, JsonValue>) {
    FieldIs(f, "type", "formSubmitted") || FieldIs(f, "event", "form-submitted") || FieldIs(f, "status", "success")
  }

  /** The payload classification: does the message report a completed submission? */
  predicate IsSubmission(p: Payload, parse: Parser) {
    match RouteOf(p, parse)
    case Skipped => false
    case ParsedPath(f) => ParsedMarksSubmission(f)
    case FallbackPath(raw) => TextMarksSubmission(raw)
    case ObjectPath(f) => ObjectMarksSubmission(f)
  }

  /** A falsy payload, the empty string and a non-string primitive never report a submission. */
  lemma FalsyNeverSubmits(parse: Parser)
    ensures !IsSubmission(Falsy, parse) && !IsSubmission(Str(""), parse) && !IsSubmission(OtherTruthy, parse)
  {
  }

  /** A string that parses to an object reports a submission iff it carries one of the five markers. */
  lemma ParsedObjectSubmitsIff(s: string, f: map<string, JsonValue>, parse: Parser)
    requires s != "" && parse(s) == ParsedObj(f)
    ensures IsSubmission(Str(s), parse) <==>
      (FieldIs(f, "type", "hsFormCallback") || FieldIs(f, "event", "form-submitted") ||
       FieldIs(f, "action", "submit") || FieldIs(f, "type", "formSubmitted") || FieldIs(f, "status", "success"))
  {
  }

  /** A string that parses to a primitive never reports a submission, and never reaches the fallback. */
  lemma ParsedPrimitiveNeverSubmits(s: string, parse: Parser)
    requires parse(s) == ParsedPrimitive
    ensures !IsSubmission(Str(s), parse) && !RouteOf(Str(s), parse).FallbackPath?
  {
  }

  /**
   * A string whose parse throws, or yields null, reports a submission iff its lowercase form
   * contains `form-submitted`, or `formsubmitted`, or both `success` and `form`.
   */
  lemma FallbackSubmitsIff(s: string, parse: Parser)
    requires s != "" && (parse(s) == ParseFail || parse(s) == ParsedNull)
    ensures RouteOf(Str(s), parse) == FallbackPath(s)
    ensures IsSubmission(Str(s), parse) <==>
      (Contains(Lower(s), "form-submitted") || Contains(Lower(s), "formsubmitted") ||
       (Contains(Lower(s), "success") && Contains(Lower(s), "form")))
  {
  }

  /** The fallback does not see case: a string and its lowercase form are classified alike. */
  lemma FallbackIgnoresCase(s: string, parse: Parser)
    requires s != "" && (parse(s) == ParseFail || parse(s) == ParsedNull)
    requires parse(Lower(s)) == ParseFail || parse(Lower(s)) == ParsedNull
    ensures IsSubmission(Str(s), parse) == IsSubmission(Str(Lower(s)), parse)
  {
    LowerIdempotent(s);
  }

  /** An object payload reports a submission iff it carries one of the three object markers. */
  lemma ObjectSubmitsIff(f: map<string, JsonValue>, parse: Parser)
    ensures IsSubmission(Obj(f), parse) <==>
      (FieldIs(f, "type", "formSubmitted") || FieldIs(f, "event", "form-submitted") || FieldIs(f, "status", "success"))
  {
  }

  /**
   * The object branch does not accept the callback-type or submit-action markers, though the
   * parsed-string branch does: the same fields sent as a JSON string would report a submission.
   */
  lemma ObjectIgnoresCallbackAndSubmitAction(s1: string, s2: string, parse: Parser)
    requires s1 != "" && parse(s1) == ParsedObj(map["type" := JString("hsFormCallback")])
    requires s2 != "" && parse(s2) == ParsedObj(map["action" := JString("submit")])
    ensures !IsSubmission(Obj(map["type" := JString("hsFormCallback")]), parse)
    ensures !IsSubmission(Obj(map["action" := JString("submit")]), parse)
    ensures IsSubmission(Str(s1), parse) && IsSubmission(Str(s2), parse)
  {
  }

  /** `status: "success"` reports a submission whatever the other fields hold. */
  lemma StatusSuccessSubmits(f: map<string, JsonValue>, parse: Parser)
    requires FieldIs(f, "status", "success")
    ensures IsSubmission(Obj(f), parse)
  {
  }

  /** The JSON text of `{ event: "form-submitted" }` reports a submission through the parse branch. */
  lemma ParsedExample(parse: Parser)
    requires parse("{\"event\":\"form-submitted\"}") == ParsedObj(map["event" := JString("form-submitted")])
    ensures RouteOf(Str("{\"event\":\"form-submitted\"}"), parse).ParsedPath?
    ensures IsSubmission(Str("{\"event\":\"form-submitted\"}"), parse)
  {
  }

  /** `FORM-SUBMITTED ok`, which is not JSON, reports a submission through the case-blind fallback. */
  lemma FallbackExample(parse: Parser)
    requires parse("FORM-SUBMITTED ok") == ParseFail
    ensures RouteOf(Str("FORM-SUBMITTED ok"), parse).FallbackPath?
    ensures IsSubmission(Str("FORM-SUBMITTED ok"), parse)
  {
    var s := "FORM-SUBMITTED ok";
    var m := Lower(s);
    forall i | 0 <= i < 14 ensures m[i] == "form-submitted"[i] {
      assert m[i] == LowerChar(s[i]);
    }
    assert m[..14] == "form-submitted";
    assert OccursAt(m, "form-submitted", 0);
  }
}
