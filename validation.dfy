/** TypeScript's `unknown` at the boundaries where the source inspects a value's
    runtime type (`typeof`, `Array.isArray`, truthiness, `??`). */
module Js {
  datatype JsValue =
    | Undefined
    | Null
    | Str(s: string)
    | Arr(items: seq<JsValue>)
    | Obj(fields: map<string, JsValue>)
    | Other   // numbers, booleans, functions: nothing here reads them

  /** `value ?? fallback` */
  function Coalesce(value: JsValue, fallback: JsValue): JsValue {
    if value.Undefined? || value.Null? then fallback else value
  }

  /** A property read: a missing key reads as `undefined`. */
  function Field(fields: map<string, JsValue>, key: string): JsValue {
    if key in fields then fields[key] else Undefined
  }

  /** `values.filter(value => typeof value === "string")` */
  function StringsOf(items: seq<JsValue>): seq<string> {
    if items == [] then []
    else if items[0].Str? then [items[0].s] + StringsOf(items[1..])
    else StringsOf(items[1..])
  }

  /** The filter keeps exactly the string entries... */
  lemma {:induction false} StringsOfMembers(items: seq<JsValue>, s: string)
    ensures s in StringsOf(items) <==> Str(s) in items
  {
    if items != [] {
      StringsOfMembers(items[1..], s);
      assert items == [items[0]] + items[1..];
    }
  }

  /** ...and keeps their order: filtering commutes with concatenation. */
  lemma {:induction false} StringsOfAppend(a: seq<JsValue>, b: seq<JsValue>)
    ensures StringsOf(a + b) == StringsOf(a) + StringsOf(b)
  {
    if a == [] {
      assert a + b == b;
    } else {
      assert (a + b)[0] == a[0] && (a + b)[1..] == a[1..] + b;
      StringsOfAppend(a[1..], b);
    }
  }
}

/** The wrapper around schema validation (src/shared/validation/zod.ts): a schema's
    verdict becomes `Ok(data)` or an error `"<subject> is invalid"` carrying the
    schema's issues, and `FormatError` renders the first issue for humans. */
module Validation {
  import opened Wrappers
  import opened Text

  datatype Issue = Issue(path: seq<string>, message: string)

  datatype ValidationError = ValidationError(message: string, issues: seq<Issue>)

  /** What `schema.safeParse(data)` returns: the transformed data, or the issues. */
  datatype SchemaOutcome<T> = Accepted(data: T) | Rejected(issues: seq<Issue>)

  const DefaultSubject: string := "input"

  function InvalidMessage(subject: Option<string>): string {
    subject.GetOr(DefaultSubject) + " is invalid"
  }

  function ParseWithSchema<T>(outcome: SchemaOutcome<T>, subject: Option<string>): (r: Result<T, ValidationError>)
    ensures r.Ok? <==> outcome.Accepted?
    ensures r.Ok? ==> r.value == outcome.data
    ensures r.Err? ==> r.error.issues == outcome.issues
    ensures r.Err? && subject.Some? ==> r.error.message == subject.value + " is invalid"
    ensures r.Err? && subject.None? ==> r.error.message == "input is invalid"
  {
    match outcome
    case Accepted(data) => Ok(data)
    case Rejected(issues) => Err(ValidationError(InvalidMessage(subject), issues))
  }

  /** `formatZodError`: the message alone when there is no issue; otherwise only the
      first issue, as "<message>: <path joined by '.'> <detail>" or, with an empty
      path, "<message>: <detail>". */
  function FormatError(e: ValidationError): (r: string)
    ensures e.issues == [] ==> r == e.message
    ensures e.issues != [] ==> StartsWith(r, e.message + ": ") && EndsWith(r, e.issues[0].message)
    ensures e.issues != [] && Join(e.issues[0].path, ".") == [] ==> r == e.message + ": " + e.issues[0].message
    ensures e.issues != [] && Join(e.issues[0].path, ".") != [] ==>
      r == e.message + ": " + Join(e.issues[0].path, ".") + " " + e.issues[0].message
  {
    if e.issues == [] then e.message
    else
      var first := e.issues[0];
      var path := Join(first.path, ".");
      if path != [] then e.message + ": " + path + " " + first.message
      else e.message + ": " + first.message
  }

  /** The error message is never empty of its prefix: formatting keeps the message
      "<subject> is invalid" readable at the head of the text. */
  lemma FormattedRejectionNamesSubject<T>(outcome: SchemaOutcome<T>, subject: string)
    requires outcome.Rejected?
    ensures StartsWith(FormatError(ParseWithSchema(outcome, Some(subject)).error), subject + " is invalid")
  {
    var e := ParseWithSchema(outcome, Some(subject)).error;
    var r := FormatError(e);
    if e.issues != [] {
      assert r[..|e.message|] == (e.message + ": ")[..|e.message|];
    }
  }
}
