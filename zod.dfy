/** The part of zod's `safeParse` that the backend's schemas use: an object schema whose
    fields are strings with a minimum length, an email check or an enum, each optional or
    not. Every field is checked and all issues are reported, in the schema's field order;
    a field that is not a string reports only its type issue. Keys the schema does not
    name are stripped from the output. */
module Zod {
  import opened Common

  datatype IssueCode =
    | InvalidType            // missing (`Required`) or not a string
    | TooSmall(minimum: nat) // `.min(minimum)`
    | InvalidString          // `.email()`
    | InvalidEnumValue(options: seq<string>)

  /** One entry of `error.issues`. `message` is the schema's own message when it gives one;
      `None` stands for zod's default text, which is not part of this model. */
  datatype ZodIssue = ZodIssue(path: seq<string>, code: IssueCode, message: Option<string>)

  /** The outcome of `schema.safeParse(body)`. */
  datatype Parsed<T> = Valid(data: T) | Invalid(issues: seq<ZodIssue>)

  /** A present string value. */
  predicate IsString(v: Option<Json>) {
    v.Some? && v.value.JStr?
  }

  /** The string of a value that `IsString` accepts; the empty string otherwise. */
  function StringOf(v: Option<Json>): string {
    if IsString(v) then v.value.s else ""
  }

  /** `z.string().min(min, message)` on the value of field `key`: zod compares the
      JavaScript `.length`, which counts UTF-16 code units. */
  function MinIssues(key: string, v: Option<Json>, min: nat, message: Option<string>): (r: seq<ZodIssue>)
    ensures r == [] <==> IsString(v) && Utf16Length(StringOf(v)) >= min
    ensures |r| <= 1
  {
    if !IsString(v) then [ZodIssue([key], InvalidType, None)]
    else if Utf16Length(v.value.s) < min then [ZodIssue([key], TooSmall(min), message)]
    else []
  }

  /** `z.string().min(min).optional()`: `undefined` passes, anything else is checked. */
  function OptionalMinIssues(key: string, v: Option<Json>, min: nat): (r: seq<ZodIssue>)
    ensures r == [] <==> v.None? || (IsString(v) && Utf16Length(StringOf(v)) >= min)
  {
    if v.None? then [] else MinIssues(key, v, min, None)
  }

  /** `z.string().email(message)`, the format check being the predicate `isEmail`. */
  function EmailIssues(key: string, v: Option<Json>, isEmail: string -> bool, message: string): (r: seq<ZodIssue>)
    ensures r == [] <==> IsString(v) && isEmail(StringOf(v))
  {
    if !IsString(v) then [ZodIssue([key], InvalidType, None)]
    else if !isEmail(v.value.s) then [ZodIssue([key], InvalidString, Some(message))]
    else []
  }

  /** `z.enum(options)` on the value of field `key`. */
  function EnumIssues(key: string, v: Option<Json>, options: seq<string>): (r: seq<ZodIssue>)
    ensures r == [] <==> IsString(v) && StringOf(v) in options
  {
    if !IsString(v) then [ZodIssue([key], InvalidType, None)]
    else if v.value.s !in options then [ZodIssue([key], InvalidEnumValue(options), None)]
    else []
  }

  /** The issue zod reports when the body is not an object at all. */
  const NotAnObject := [ZodIssue([], InvalidType, None)]

  /** An issue as it appears in a response body. */
  function IssueJson(i: ZodIssue): Json {
    Stringify([
      ("code", Some(JStr(CodeName(i.code)))),
      ("path", Some(JArr(seq(|i.path|, k requires 0 <= k < |i.path| => JStr(i.path[k]))))),
      ("message", Some(if i.message.Some? then JStr(i.message.value) else JOpaque))
    ])
  }

  function CodeName(c: IssueCode): string {
    match c
    case InvalidType => "invalid_type"
    case TooSmall(_) => "too_small"
    case InvalidString => "invalid_string"
    case InvalidEnumValue(_) => "invalid_enum_value"
  }

  function IssuesJson(issues: seq<ZodIssue>): (j: Json)
    ensures j.JArr? && |j.items| == |issues|
  {
    JArr(seq(|issues|, k requires 0 <= k < |issues| => IssueJson(issues[k])))
  }
}
