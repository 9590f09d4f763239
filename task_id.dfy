/** Task identifiers (src/domain/value-objects/task-id.ts): either the legacy form
    `<LETTER>-<ALPHANUMERIC>{4,30}` or a 26-character ULID, always stored upper-case. */
module TaskIds {
  import opened Wrappers
  import opened Text
  import opened Js
  import opened Validation

  predicate IsUpperAlnum(c: char) { IsUpperLetter(c) || IsDigit(c) }

  /** `^[A-Z]-[A-Z0-9]{4,30}$` */
  predicate IsLegacyId(s: string) {
    6 <= |s| <= 32 && IsUpperLetter(s[0]) && s[1] == '-'
    && forall i :: 2 <= i < |s| ==> IsUpperAlnum(s[i])
  }

  /** `^[0-9A-Z]{26}$` */
  predicate IsUlid(s: string) {
    |s| == 26 && forall i :: 0 <= i < |s| ==> IsUpperAlnum(s[i])
  }

  /** A string accepted by one of the two identifier patterns. */
  predicate MatchesIdPattern(s: string) { IsLegacyId(s) || IsUlid(s) }

  /** An identifier in its stored form: it matches a pattern as it stands, so it is
      upper-case, 6 to 32 characters long and free of whitespace. */
  lemma CanonicalIdShape(s: string)
    requires MatchesIdPattern(s)
    ensures 6 <= |s| <= 32
    ensures HasNoLowerAscii(s) && IsTrimmed(s)
    ensures forall i :: 0 <= i < |s| ==> IsWordChar(s[i]) || s[i] == '-'
  {
  }

  /** `sanitizeTaskId`: trim, then upper-case. */
  function SanitizeTaskId(value: string): (r: string)
    ensures |r| <= |value| && IsTrimmed(r) && HasNoLowerAscii(r)
  {
    Upper(Trim(value))
  }

  const MinLengthMessage: string := "ID must be at least 6 characters"
  const MaxLengthMessage: string := "ID must be 32 characters or fewer"
  const PatternMessage: string :=
    "ID must follow the pattern <LETTER>-<ALPHANUMERIC> (e.g., T-ABC123) or be a valid ULID"

  /** `TaskIdSchema`: the length checks and the pattern check each report their own
      issue (the pattern is tested on the upper-cased value), and the accepted value
      is upper-cased. */
  function TaskIdSchema(value: string): (r: SchemaOutcome<string>)
    ensures r.Accepted? <==> MatchesIdPattern(Upper(value))
    ensures r.Accepted? ==> r.data == Upper(value)
    ensures r.Rejected? ==> r.issues != []
  {
    var issues :=
      (if |value| < 6 then [Issue([], MinLengthMessage)] else [])
      + (if |value| > 32 then [Issue([], MaxLengthMessage)] else [])
      + (if MatchesIdPattern(Upper(value)) then [] else [Issue([], PatternMessage)]);
    if issues == [] then Accepted(Upper(value)) else Rejected(issues)
  }

  /** `parseTaskId`: sanitize, then validate. An identifier is accepted exactly when its
      trimmed, upper-cased form matches a pattern, and that form is the result. */
  function ParseTaskId(value: string): (r: Result<string, ValidationError>)
    ensures r.Ok? <==> MatchesIdPattern(SanitizeTaskId(value))
    ensures r.Ok? ==> r.value == SanitizeTaskId(value) && MatchesIdPattern(r.value)
    ensures r.Err? ==> r.error.message == "TaskId is invalid" && r.error.issues != []
  {
    UpperOfUpper(SanitizeTaskId(value));
    ParseWithSchema(TaskIdSchema(SanitizeTaskId(value)), Some("TaskId"))
  }

  /** `isTaskId`: only strings qualify; the same sanitizing and patterns as the parser. */
  predicate IsTaskId(value: JsValue) {
    value.Str? && MatchesIdPattern(SanitizeTaskId(value.s))
  }

  /** The type guard and the parser agree on every string. */
  lemma IsTaskIdAgreesWithParse(value: JsValue)
    ensures IsTaskId(value) <==> value.Str? && ParseTaskId(value.s).Ok?
  {
  }

  /** Parsing a stored identifier gives it back unchanged. */
  lemma ParseCanonicalId(id: string)
    requires MatchesIdPattern(id)
    ensures ParseTaskId(id) == Ok(id)
  {
    CanonicalIdShape(id);
    TrimOfTrimmed(id);
    UpperOfUpper(id);
  }

  /** Parsing is idempotent: a parsed identifier parses to itself. */
  lemma ParseTaskIdIdempotent(value: string)
    requires ParseTaskId(value).Ok?
    ensures ParseTaskId(ParseTaskId(value).value) == ParseTaskId(value)
  {
    ParseCanonicalId(ParseTaskId(value).value);
  }

  /** A legacy identifier is a letter, a dash and any 4 to 30 upper-case letters or digits. */
  lemma LegacyIdFromParts(prefix: char, body: string)
    requires IsUpperLetter(prefix) && 4 <= |body| <= 30
    requires forall i :: 0 <= i < |body| ==> IsUpperAlnum(body[i])
    ensures MatchesIdPattern([prefix, '-'] + body)
  {
    var s := [prefix, '-'] + body;
    assert forall i :: 2 <= i < |s| ==> s[i] == body[i - 2];
  }

  /** Sanitizing strips padding and upper-cases what is left. */
  lemma SanitizePadded(w1: string, t: string, w2: string)
    requires AllWhitespace(w1) && AllWhitespace(w2) && IsTrimmed(t) && t != []
    ensures SanitizeTaskId(w1 + t + w2) == Upper(t)
  {
    TrimPadded(w1, t, w2);
  }

  /** Lower-case input and padding are normalised away. */
  lemma ParseNormalisesExample()
    ensures ParseTaskId(" t-abc12 ") == Ok("T-ABC12")
  {
    var t := "t-abc12";
    assert IsTrimmed(t) by { assert t[0] == 't' && t[6] == '2'; }
    assert " t-abc12 " == " " + t + " ";
    SanitizePadded(" ", t, " ");
    assert Upper(t) == "T-ABC12";
    assert "T-ABC12" == ['T', '-'] + "ABC12";
    LegacyIdFromParts('T', "ABC12");
  }

  /** The guard accepts a legacy identifier as written. */
  lemma GuardAcceptsExample()
    ensures IsTaskId(Str("T-12345"))
  {
    var ok := "T-12345";
    assert IsTrimmed(ok) by { assert ok[0] == 'T' && ok[6] == '5'; }
    TrimOfTrimmed(ok);
    UpperOfUpper(ok);
  }

  /** Lower-case letters are upper-cased. */
  lemma ParseLowerCaseExample(id: string)
    requires id == "t-abc12"
    ensures ParseTaskId(id) == Ok("T-ABC12")
  {
    assert IsTrimmed(id) by { assert id[0] == 't' && id[6] == '2'; }
    TrimOfTrimmed(id);
    assert Upper(id) == "T-ABC12";
  }

  /** A word that is neither form is refused, and so is anything that is not a string. */
  lemma GuardRefusesExample()
    ensures !IsTaskId(Str("not-id")) && !IsTaskId(Other)
  {
    var bad := "not-id";
    assert IsTrimmed(bad) by { assert bad[0] == 'n' && bad[5] == 'd'; }
    TrimOfTrimmed(bad);
    assert Upper(bad)[1] == 'O';
  }

  /** The ULID alphabet, Crockford's base 32: digits and upper-case letters without
      I, L, O and U. */
  predicate IsCrockfordChar(c: char) {
    IsDigit(c) || ('A' <= c <= 'H') || c == 'J' || c == 'K' || c == 'M' || c == 'N'
    || ('P' <= c <= 'T') || ('V' <= c <= 'Z')
  }

  predicate IsGeneratedUlid(s: string) {
    |s| == 26 && forall i :: 0 <= i < |s| ==> IsCrockfordChar(s[i])
  }

  /** What the `ulid()` generator returns. */
  type Ulid = s: string | IsGeneratedUlid(s) witness "00000000000000000000000000"

  /** A generated ULID is accepted as a task id, unchanged. */
  lemma GeneratedUlidIsTaskId(u: Ulid)
    ensures MatchesIdPattern(u) && ParseTaskId(u) == Ok(u)
  {
    assert IsUlid(u);
    ParseCanonicalId(u);
  }
}
