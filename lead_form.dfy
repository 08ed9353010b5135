/**
 * What the two hero lead forms have in common: the five form fields, and the rules their
 * `validateForm` functions apply (required fields after `trim`, required selects, the email regex).
 */
module LeadForm {
  import opened Text

  /** The form's state: five strings, as typed or selected. */
  datatype FormData = FormData(name: string, whatsapp: string, email: string, investmentRange: string, preferredProject: string)

  /** The form's field names, the keys of its errors dictionary. */
  datatype Field = Name | Whatsapp | Email | InvestmentRange | PreferredProject

  /**
   * The error messages the two validators show. The errors dictionary holds one of these
   * per key; `MessageText` gives the string the user sees.
   */
  datatype Message =
    | FullNameRequired | WhatsAppRequired | EmailRequired | InvalidEmailFormat
    | InvestmentCapacityRequired | PropertyInterestRequired       // the elite hero's select messages
    | InvestmentRangeRequired | ProjectPreferenceRequired          // the conversion hero's select messages

  function MessageText(m: Message): string {
    match m
    case FullNameRequired => "Full name required"
    case WhatsAppRequired => "WhatsApp required"
    case EmailRequired => "Email required"
    case InvalidEmailFormat => "Invalid email format"
    case InvestmentCapacityRequired => "Investment capacity required"
    case PropertyInterestRequired => "Property interest required"
    case InvestmentRangeRequired => "Investment range required"
    case ProjectPreferenceRequired => "Project preference required"
  }

  /** The value a successful submit resets the form to. */
  const EmptyForm: FormData := FormData("", "", "", "", "")

  /**
   * The email regex `\S+@\S+\.\S+` matches with its `@` at `p` and its `.` at `q`, each `\S+`
   * taken as short as it may be: one character before the `@`, one after the `.`.
   */
  predicate MatchesAt(s: string, p: int, q: int)
    requires 1 <= p && p + 1 < q && q + 1 < |s|
  {
    s[p] == '@' && s[q] == '.' && !IsWhitespace(s[p - 1]) && !IsWhitespace(s[q + 1]) && NoWhitespace(s[p + 1..q])
  }

  /** `/\S+@\S+\.\S+/.test(s)`: an unanchored search for a match anywhere in `s`. */
  predicate RegexTest(s: string) {
    exists p, q | 1 <= p < |s| && p + 1 < q < |s| - 1 :: MatchesAt(s, p, q)
  }

  /** `s[a..b]` is a whitespace-free run of the shape `x@y.z`, with `x`, `y` and `z` non-empty. */
  ghost predicate EmailShapedAt(s: string, a: int, p: int, q: int, b: int) {
    0 <= a < p && p + 1 < q && q + 1 < b <= |s| && s[p] == '@' && s[q] == '.' && NoWhitespace(s[a..b])
  }

  /** Some whitespace-free run of `s` has the shape `x@y.z` with non-empty parts. */
  ghost predicate HasEmailShape(s: string) {
    exists a, p, q, b :: EmailShapedAt(s, a, p, q, b)
  }

  /** The regex search succeeds exactly on the strings that have the email shape. */
  lemma RegexTestIff(s: string)
    ensures RegexTest(s) <==> HasEmailShape(s)
  {
    if RegexTest(s) {
      var p, q :| 1 <= p < |s| && p + 1 < q < |s| - 1 && MatchesAt(s, p, q);
      var run := s[p - 1..q + 2];
      forall i | 0 <= i < |run| ensures !IsWhitespace(run[i]) {
        var k := p - 1 + i;
        assert run[i] == s[k];
        if p < k < q { assert s[k] == s[p + 1..q][k - p - 1]; }
      }
      assert EmailShapedAt(s, p - 1, p, q, q + 2);
    }
    if HasEmailShape(s) {
      var a, p, q, b :| EmailShapedAt(s, a, p, q, b);
      assert s[p - 1] == s[a..b][p - 1 - a];
      assert s[q + 1] == s[a..b][q + 1 - a];
      var y := s[p + 1..q];
      forall i | 0 <= i < |y| ensures !IsWhitespace(y[i]) {
        assert y[i] == s[a..b][p + 1 + i - a];
      }
      assert MatchesAt(s, p, q);
    }
  }

  /**
   * The error keys the rules produce: `name` and `whatsapp` when blank after trimming,
   * `email` when blank or not of the email shape, the two selects when they hold the
   * empty placeholder value (they are not trimmed).
   */
  ghost function ErrorKeys(f: FormData): set<Field> {
    (if AllWhitespace(f.name) then {Name} else {}) +
    (if AllWhitespace(f.whatsapp) then {Whatsapp} else {}) +
    (if AllWhitespace(f.email) || !HasEmailShape(f.email) then {Email} else {}) +
    (if f.investmentRange == "" then {InvestmentRange} else {}) +
    (if f.preferredProject == "" then {PreferredProject} else {})
  }

  /** Each key, one by one, and the form is valid exactly when every rule passes. */
  lemma ErrorKeysIff(f: FormData)
    ensures Name in ErrorKeys(f) <==> AllWhitespace(f.name)
    ensures Whatsapp in ErrorKeys(f) <==> AllWhitespace(f.whatsapp)
    ensures Email in ErrorKeys(f) <==> AllWhitespace(f.email) || !HasEmailShape(f.email)
    ensures InvestmentRange in ErrorKeys(f) <==> f.investmentRange == ""
    ensures PreferredProject in ErrorKeys(f) <==> f.preferredProject == ""
    ensures ErrorKeys(f) == {} <==>
      !AllWhitespace(f.name) && !AllWhitespace(f.whatsapp) && HasEmailShape(f.email) &&
      f.investmentRange != "" && f.preferredProject != ""
  {
    if HasEmailShape(f.email) {
      var a, p, q, b :| EmailShapedAt(f.email, a, p, q, b);
      assert !IsWhitespace(f.email[p]);
    }
    if ErrorKeys(f) == {} {
      assert Name !in ErrorKeys(f);
    }
  }

  /**
   * A dictionary whose keys follow the code's tests (`!s.trim()` for blankness, the regex search
   * for the email shape, `!s` for the selects) has exactly the error keys of the rules.
   */
  lemma KeysFollowRules<V>(f: FormData, e: map<Field, V>)
    requires Name in e <==> Trim(f.name) == ""
    requires Whatsapp in e <==> Trim(f.whatsapp) == ""
    requires Email in e <==> Trim(f.email) == "" || !RegexTest(f.email)
    requires InvestmentRange in e <==> f.investmentRange == ""
    requires PreferredProject in e <==> f.preferredProject == ""
    ensures e.Keys == ErrorKeys(f)
    ensures AllWhitespace(f.email) == (Trim(f.email) == "")
  {
    forall k: Field ensures k in e <==> k in ErrorKeys(f) {
      ErrorKeyIff(f, k);
      match k
      case Name => TrimEmptyIff(f.name);
      case Whatsapp => TrimEmptyIff(f.whatsapp);
      case Email => TrimEmptyIff(f.email); RegexTestIff(f.email);
      case InvestmentRange =>
      case PreferredProject =>
    }
    TrimEmptyIff(f.email);
  }

  /** The rule that puts `k` among the error keys. */
  ghost predicate Fails(f: FormData, k: Field) {
    match k
    case Name => AllWhitespace(f.name)
    case Whatsapp => AllWhitespace(f.whatsapp)
    case Email => AllWhitespace(f.email) || !HasEmailShape(f.email)
    case InvestmentRange => f.investmentRange == ""
    case PreferredProject => f.preferredProject == ""
  }

  /** A key is an error key exactly when its rule fails. */
  lemma ErrorKeyIff(f: FormData, k: Field)
    ensures k in ErrorKeys(f) <==> Fails(f, k)
  {
  }

  /** A form the rules accept: the validators do have a success path. */
  lemma SampleFormIsValid()
    ensures ErrorKeys(FormData("A", "1", "a@b.c", "1m-2m", "dubai")) == {}
  {
    var f := FormData("A", "1", "a@b.c", "1m-2m", "dubai");
    assert EmailShapedAt(f.email, 0, 1, 3, 5);
    assert !IsWhitespace(f.name[0]) && !IsWhitespace(f.whatsapp[0]);
    ErrorKeysIff(f);
  }
}
