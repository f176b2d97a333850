/**
 * The directory-entry schema: an object with five string fields, each of
 * which must be present, be a string and hold at least one character.
 * Validation follows the zod object schema it is written in: every field
 * is checked, every failure is reported as an issue in field order, and
 * keys outside the five are dropped from the parsed entry.
 */
module Directory {
  import opened Wrappers

  /** The JSON value handed to the schema. */
  datatype Json =
    | JNull
    | JBool(b: bool)
    | JNumber(n: int)
    | JString(s: string)
    | JArray(items: seq<Json>)
    | JObject(fields: map<string, Json>)

  /** A parsed directory entry. */
  datatype DirectoryUpdate = DirectoryUpdate(
    publicName: string,
    key: string,
    password: string,
    privateIpAddress: string,
    publicIpAddress: string)

  /** Why a value was refused: the wrong type, or a string that is too short. */
  datatype IssueCode =
    | InvalidType(expected: string, received: string)
    | TooSmall(minimum: nat)

  /** One validation issue; `path` is empty for the input itself, else the field name. */
  datatype Issue = Issue(path: seq<string>, code: IssueCode)

  /** The `.min(1)` bound shared by all five fields. */
  const MinLength: nat := 1

  const FieldNames: seq<string> :=
    ["publicName", "key", "password", "privateIpAddress", "publicIpAddress"]

  /** The type name zod reports for a value; a missing key reads as `undefined`. */
  function TypeName(v: Option<Json>): string
  {
    match v
    case None => "undefined"
    case Some(JNull) => "null"
    case Some(JBool(_)) => "boolean"
    case Some(JNumber(_)) => "number"
    case Some(JString(_)) => "string"
    case Some(JArray(_)) => "array"
    case Some(JObject(_)) => "object"
  }

  /** Field `name` is present, a string, and at least `MinLength` long. */
  predicate FieldOk(fields: map<string, Json>, name: string)
  {
    name in fields && fields[name].JString? && |fields[name].s| >= MinLength
  }

  /** Every field of a parsed entry meets the schema. */
  predicate Valid(d: DirectoryUpdate)
  {
    && |d.publicName| >= MinLength
    && |d.key| >= MinLength
    && |d.password| >= MinLength
    && |d.privateIpAddress| >= MinLength
    && |d.publicIpAddress| >= MinLength
  }

  /** The schema accepts an input. */
  predicate Accepted(input: Json)
  {
    && input.JObject?
    && FieldOk(input.fields, "publicName")
    && FieldOk(input.fields, "key")
    && FieldOk(input.fields, "password")
    && FieldOk(input.fields, "privateIpAddress")
    && FieldOk(input.fields, "publicIpAddress")
  }

  /** The issues of one field: none when it is fine, exactly one otherwise. */
  function FieldIssues(fields: map<string, Json>, name: string): (r: seq<Issue>)
    ensures r == [] <==> FieldOk(fields, name)
    ensures |r| <= 1
    ensures forall issue :: issue in r ==> issue.path == [name]
    ensures name !in fields ==> r == [Issue([name], InvalidType("string", "undefined"))]
    ensures name in fields && fields[name] == JString("") ==> r == [Issue([name], TooSmall(MinLength))]
    ensures name in fields && !fields[name].JString? ==>
      r == [Issue([name], InvalidType("string", TypeName(Some(fields[name]))))]
  {
    if name !in fields then [Issue([name], InvalidType("string", "undefined"))]
    else match fields[name]
      case JString(s) => if |s| >= MinLength then [] else [Issue([name], TooSmall(MinLength))]
      case _ => [Issue([name], InvalidType("string", TypeName(Some(fields[name]))))]
  }

  /** The issues of the fields `names`, field after field. */
  function IssuesFor(fields: map<string, Json>, names: seq<string>): seq<Issue>
    decreases |names|
  {
    if names == [] then []
    else FieldIssues(fields, names[0]) + IssuesFor(fields, names[1..])
  }

  /** The issues of all five fields, in the order the schema declares them. */
  function ObjectIssues(fields: map<string, Json>): seq<Issue>
  {
    IssuesFor(fields, FieldNames)
  }

  /**
   * No issue is found iff every listed field is fine, and a field is named
   * by an issue iff it is listed and not fine.
   */
  lemma {:induction false} IssuesNameBadFields(fields: map<string, Json>, names: seq<string>)
    ensures IssuesFor(fields, names) == [] <==> forall n :: n in names ==> FieldOk(fields, n)
    ensures forall n :: (n in names && !FieldOk(fields, n)) <==>
      exists issue :: issue in IssuesFor(fields, names) && issue.path == [n]
    decreases |names|
  {
    if names != [] {
      var head, tail := names[0], names[1..];
      IssuesNameBadFields(fields, tail);
      assert forall n :: n in names <==> n == head || n in tail;
      var mine := FieldIssues(fields, head);
      forall n | n in names && !FieldOk(fields, n)
        ensures exists issue :: issue in IssuesFor(fields, names) && issue.path == [n]
      {
        if n == head {
          assert mine[0] in IssuesFor(fields, names);
        } else {
          var issue :| issue in IssuesFor(fields, tail) && issue.path == [n];
          assert issue in IssuesFor(fields, names);
        }
      }
      forall n, issue | issue in IssuesFor(fields, names) && issue.path == [n]
        ensures n in names && !FieldOk(fields, n)
      {
        if issue in mine {
          assert [n] == [head];
        }
      }
    }
  }

  /** The issues of a listed field are among the issues of the list. */
  lemma {:induction false} FieldIssuesIncluded(fields: map<string, Json>, names: seq<string>, name: string)
    requires name in names
    ensures forall issue :: issue in FieldIssues(fields, name) ==> issue in IssuesFor(fields, names)
    decreases |names|
  {
    if names[0] != name {
      FieldIssuesIncluded(fields, names[1..], name);
    }
  }

  /** The five fields are exactly the ones acceptance spells out. */
  lemma AcceptedIsAllFieldsOk(input: Json)
    requires input.JObject?
    ensures Accepted(input) <==> forall n :: n in FieldNames ==> FieldOk(input.fields, n)
  {
  }

  /**
   * `DirectoryUpdateSchema.safeParse(input)`: the entry when every field is
   * valid, otherwise all issues found. Success is exactly acceptance, and
   * the entry carries the five strings of the input.
   */
  function Parse(input: Json): (r: Result<DirectoryUpdate, seq<Issue>>)
    ensures r.Success? <==> Accepted(input)
    ensures r.Success? ==>
      && Valid(r.value)
      && r.value.publicName == input.fields["publicName"].s
      && r.value.key == input.fields["key"].s
      && r.value.password == input.fields["password"].s
      && r.value.privateIpAddress == input.fields["privateIpAddress"].s
      && r.value.publicIpAddress == input.fields["publicIpAddress"].s
    ensures r.Failure? ==> r.error != []
    ensures !input.JObject? ==> r == Failure([Issue([], InvalidType("object", TypeName(Some(input))))])
    ensures input.JObject? && r.Failure? ==> r.error == ObjectIssues(input.fields)
  {
    match input
    case JObject(fields) =>
      var issues := ObjectIssues(fields);
      IssuesNameBadFields(fields, FieldNames);
      AcceptedIsAllFieldsOk(input);
      if issues == [] then
        Success(DirectoryUpdate(
          fields["publicName"].s, fields["key"].s, fields["password"].s,
          fields["privateIpAddress"].s, fields["publicIpAddress"].s))
      else
        Failure(issues)
    case _ => Failure([Issue([], InvalidType("object", TypeName(Some(input))))])
  }

  /** A refused object is reported with an issue for every bad field, and for no other field. */
  lemma ParseNamesBadFields(fields: map<string, Json>, name: string)
    requires name in FieldNames
    ensures Parse(JObject(fields)).Failure? ==>
      (!FieldOk(fields, name) <==> exists issue :: issue in Parse(JObject(fields)).error && issue.path == [name])
  {
    IssuesNameBadFields(fields, FieldNames);
  }

  /** The JSON object with exactly the five fields of an entry. */
  function ToJson(d: DirectoryUpdate): Json
  {
    JObject(map[
      "publicName" := JString(d.publicName),
      "key" := JString(d.key),
      "password" := JString(d.password),
      "privateIpAddress" := JString(d.privateIpAddress),
      "publicIpAddress" := JString(d.publicIpAddress)])
  }

  /** Encoding an entry and validating it gives the entry back exactly when it is valid. */
  lemma RoundTrip(d: DirectoryUpdate)
    ensures Parse(ToJson(d)).Success? <==> Valid(d)
    ensures Valid(d) ==> Parse(ToJson(d)) == Success(d)
  {
  }

  /** An empty string in any of the five fields is refused with a too-small issue on it. */
  lemma EmptyFieldRejected(fields: map<string, Json>, name: string)
    requires name in FieldNames
    requires name in fields && fields[name] == JString("")
    ensures Parse(JObject(fields)).Failure?
    ensures Issue([name], TooSmall(MinLength)) in Parse(JObject(fields)).error
  {
    FieldIssuesIncluded(fields, FieldNames, name);
    assert Issue([name], TooSmall(MinLength)) in FieldIssues(fields, name);
    assert ObjectIssues(fields) != [];
  }

  /** A missing field is refused with a type issue on it. */
  lemma MissingFieldRejected(fields: map<string, Json>, name: string)
    requires name in FieldNames
    requires name !in fields
    ensures Parse(JObject(fields)).Failure?
    ensures Issue([name], InvalidType("string", "undefined")) in Parse(JObject(fields)).error
  {
    FieldIssuesIncluded(fields, FieldNames, name);
    assert Issue([name], InvalidType("string", "undefined")) in FieldIssues(fields, name);
    assert ObjectIssues(fields) != [];
  }

  /**
   * The address fields are not checked for address syntax: any non-empty
   * strings there are accepted when the other fields are valid.
   */
  lemma AnyNonEmptyAddressAccepted(d: DirectoryUpdate, privateIp: string, publicIp: string)
    requires Valid(d)
    requires |privateIp| >= MinLength && |publicIp| >= MinLength
    ensures Parse(ToJson(d.(privateIpAddress := privateIp, publicIpAddress := publicIp)))
         == Success(d.(privateIpAddress := privateIp, publicIpAddress := publicIp))
  {
  }

  /** Keys outside the schema neither cause a refusal nor reach the parsed entry. */
  lemma UnknownKeysIgnored(fields: map<string, Json>, extra: map<string, Json>)
    requires forall n :: n in extra ==> n !in FieldNames
    ensures Parse(JObject(fields + extra)) == Parse(JObject(fields))
  {
    var g := fields + extra;
    SameIssues(fields, extra, FieldNames);
    if ObjectIssues(fields) == [] {
      IssuesNameBadFields(fields, FieldNames);
      assert FieldNames[0] !in extra && FieldNames[1] !in extra && FieldNames[2] !in extra;
      assert FieldNames[3] !in extra && FieldNames[4] !in extra;
    }
  }

  lemma {:induction false} SameIssues(fields: map<string, Json>, extra: map<string, Json>, names: seq<string>)
    requires forall n :: n in extra ==> n !in names
    ensures IssuesFor(fields + extra, names) == IssuesFor(fields, names)
    decreases |names|
  {
    if names != [] {
      assert names[0] !in extra;
      SameIssues(fields, extra, names[1..]);
    }
  }
}
