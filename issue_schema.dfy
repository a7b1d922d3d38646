/** `issue.schema.ts`: the priority enum and the create and update validators of an issue. */
module IssueSchema {
  import opened Common
  import opened Zod

  /** `PriorityEnum = z.enum(['LOW', 'MEDIUM', 'HIGH'])`. */
  datatype Priority = LOW | MEDIUM | HIGH

  function PriorityName(p: Priority): string {
    match p
    case LOW => "LOW"
    case MEDIUM => "MEDIUM"
    case HIGH => "HIGH"
  }

  const PriorityNames: seq<string> := ["LOW", "MEDIUM", "HIGH"]

  /** The member of the enum with the given name. */
  function PriorityOf(name: string): (p: Option<Priority>)
    ensures p.Some? <==> name in PriorityNames
    ensures p.Some? ==> PriorityName(p.value) == name
  {
    if name == "LOW" then Some(LOW)
    else if name == "MEDIUM" then Some(MEDIUM)
    else if name == "HIGH" then Some(HIGH)
    else None
  }

  const TitleMessage := "Title must be at least 3 characters long"
  const DescriptionMessage := "Description must be at least 5 characters long"

  /** The parsed output of `createIssueSchema`. */
  datatype CreateIssueInput = CreateIssueInput(title: string, description: string, priority: Priority)

  /** The parsed output of `updateIssueSchema`: only the fields that were present. */
  datatype UpdateIssueInput = UpdateIssueInput(title: Option<string>, description: Option<string>, priority: Option<Priority>)

  function CreateIssues(body: Json): seq<ZodIssue> {
    if !body.JObj? then NotAnObject
    else
      MinIssues("title", Get(body, "title"), 3, Some(TitleMessage))
      + MinIssues("description", Get(body, "description"), 5, Some(DescriptionMessage))
      + EnumIssues("priority", Get(body, "priority"), PriorityNames)
  }

  /** `createIssueSchema.safeParse(body)`. */
  function ParseCreateIssue(body: Json): (r: Parsed<CreateIssueInput>)
    ensures r.Invalid? ==> r.issues != []
  {
    var issues := CreateIssues(body);
    if issues != [] then Invalid(issues)
    else
      var p := PriorityOf(StringOf(Get(body, "priority")));
      Valid(CreateIssueInput(StringOf(Get(body, "title")), StringOf(Get(body, "description")), p.value))
  }

  /** What `createIssueSchema` demands of a body. */
  predicate CreateBodyValid(body: Json) {
    && body.JObj?
    && IsString(Get(body, "title")) && Utf16Length(StringOf(Get(body, "title"))) >= 3
    && IsString(Get(body, "description")) && Utf16Length(StringOf(Get(body, "description"))) >= 5
    && IsString(Get(body, "priority")) && StringOf(Get(body, "priority")) in PriorityNames
  }

  /** A create body parses exactly when its title has a `.length` of at least 3 (UTF-16
      code units), its description at least 5 and its priority is LOW, MEDIUM or HIGH; the output carries
      those three values and nothing else. */
  lemma CreateIssueRules(body: Json)
    ensures ParseCreateIssue(body).Valid? <==> CreateBodyValid(body)
    ensures ParseCreateIssue(body).Valid? ==>
      var d := ParseCreateIssue(body).data;
      && Get(body, "title") == Some(JStr(d.title)) && Utf16Length(d.title) >= 3
      && Get(body, "description") == Some(JStr(d.description)) && Utf16Length(d.description) >= 5
      && Get(body, "priority") == Some(JStr(PriorityName(d.priority)))
  {
  }

  function UpdateIssues(body: Json): seq<ZodIssue> {
    if !body.JObj? then NotAnObject
    else
      OptionalMinIssues("title", Get(body, "title"), 3)
      + OptionalMinIssues("description", Get(body, "description"), 5)
      + (if Get(body, "priority").None? then [] else EnumIssues("priority", Get(body, "priority"), PriorityNames))
  }

  /** A present field is read; an absent one stays absent. */
  function OptionalString(v: Option<Json>): Option<string> {
    if IsString(v) then Some(v.value.s) else None
  }

  /** `updateIssueSchema.safeParse(body)`. */
  function ParseUpdateIssue(body: Json): (r: Parsed<UpdateIssueInput>)
    ensures r.Invalid? ==> r.issues != []
  {
    var issues := UpdateIssues(body);
    if issues != [] then Invalid(issues)
    else
      var p := OptionalString(Get(body, "priority"));
      Valid(UpdateIssueInput(
        OptionalString(Get(body, "title")),
        OptionalString(Get(body, "description")),
        if p.Some? then PriorityOf(p.value) else None))
  }

  /** The rule a field of an update body obeys. */
  predicate UpdateFieldValid(v: Option<Json>, min: nat) {
    v.None? || (IsString(v) && Utf16Length(StringOf(v)) >= min)
  }

  /** Every field of an update body is optional, and a present field obeys the same
      length or enum rule as on create; a present field is carried to the output
      unchanged, an absent one stays absent. */
  lemma UpdateIssueRules(body: Json)
    ensures ParseUpdateIssue(body).Valid? <==>
      && body.JObj?
      && UpdateFieldValid(Get(body, "title"), 3)
      && UpdateFieldValid(Get(body, "description"), 5)
      && (Get(body, "priority").None? || (IsString(Get(body, "priority")) && StringOf(Get(body, "priority")) in PriorityNames))
    ensures ParseUpdateIssue(body).Valid? ==>
      var d := ParseUpdateIssue(body).data;
      && (d.title.Some? <==> Get(body, "title").Some?)
      && (d.title.Some? ==> Get(body, "title") == Some(JStr(d.title.value)))
      && (d.description.Some? <==> Get(body, "description").Some?)
      && (d.description.Some? ==> Get(body, "description") == Some(JStr(d.description.value)))
      && (d.priority.Some? <==> Get(body, "priority").Some?)
      && (d.priority.Some? ==> Get(body, "priority") == Some(JStr(PriorityName(d.priority.value))))
  {
  }

  /** The empty object is a valid update that changes nothing. */
  lemma EmptyUpdateIsValid()
    ensures ParseUpdateIssue(JObj([])) == Valid(UpdateIssueInput(None, None, None))
  {
  }

  /** Keys outside title, description and priority, such as `status` or `userId`, are
      stripped: adding one to a body does not change what the update schema yields. */
  lemma {:induction false} UpdateStripsOtherKeys(fields: seq<(string, Json)>, key: string, value: Json)
    requires key != "title" && key != "description" && key != "priority"
    ensures ParseUpdateIssue(JObj(fields + [(key, value)])) == ParseUpdateIssue(JObj(fields))
  {
    var extended := fields + [(key, value)];
    assert extended[..|extended| - 1] == fields;
  }

  /** The same holds of the create schema. */
  lemma {:induction false} CreateStripsOtherKeys(fields: seq<(string, Json)>, key: string, value: Json)
    requires key != "title" && key != "description" && key != "priority"
    ensures ParseCreateIssue(JObj(fields + [(key, value)])) == ParseCreateIssue(JObj(fields))
  {
    var extended := fields + [(key, value)];
    assert extended[..|extended| - 1] == fields;
  }

  /** `.min(3)` counts code units: a title of one character outside the Basic
      Multilingual Plane and one letter passes it. */
  lemma AstralTitleMeetsMinimum()
    ensures MinIssues("title", Some(JStr("\U{1F600}a")), 3, Some(TitleMessage)) == []
  {
    Utf16LengthAstral();
  }
}
