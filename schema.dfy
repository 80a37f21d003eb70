/**
 * The record schema of the feed (src/types.ts): the shape of one
 * "picture of the day" record, its validator over decoded JSON, and the
 * validator for an array of records.
 *
 * The validator follows the schema library's object parser: it looks at the
 * declared keys in declaration order, reports one issue per offending key and
 * collects ALL issues before failing; keys it does not declare are dropped
 * from the result. Whether a string is a URL is not decided here: every
 * validator takes the URL test as a parameter `isUrl`, and every lemma holds
 * for every such test.
 */
module Schema {
  import opened Wrappers
  import opened Json

  datatype MediaType = Image | Video

  /** One validated record. `hdurl` is the only optional field. */
  datatype Apod = Apod(
    date: string,
    title: string,
    explanation: string,
    mediaType: MediaType,
    url: string,
    hdurl: Option<string>,
    serviceVersion: string)

  /** Where an issue was found: an object key or an array position. */
  datatype PathSeg = Key(name: string) | Index(index: nat)

  datatype IssueCode =
    | Required                    // the key is absent: `invalid_type` with `received: "undefined"`
    | InvalidType(expected: string)
    | InvalidEnumValue            // a string outside the enumeration
    | InvalidUrl                  // a string the URL test rejects

  datatype Issue = Issue(path: seq<PathSeg>, code: IssueCode)

  /** How the schema library names the expected type of `media_type`. */
  const MediaTypeExpected := "'image' | 'video'"

  function MediaTypeName(m: MediaType): string {
    match m
    case Image => "image"
    case Video => "video"
  }

  // ---------------------------------------------------------------------
  // The conformance rules, stated on their own
  // ---------------------------------------------------------------------

  predicate IsStringAt(obj: map<string, JsonValue>, key: string) {
    key in obj && obj[key].JString?
  }

  predicate IsUrlAt(obj: map<string, JsonValue>, key: string, isUrl: string -> bool) {
    IsStringAt(obj, key) && isUrl(obj[key].str)
  }

  /** What a raw value must be for the record schema to accept it. */
  predicate Conforms(v: JsonValue, isUrl: string -> bool) {
    && v.JObject?
    && IsStringAt(v.fields, "date")
    && IsStringAt(v.fields, "title")
    && IsStringAt(v.fields, "explanation")
    && "media_type" in v.fields
    && v.fields["media_type"] in {JString("image"), JString("video")}
    && IsUrlAt(v.fields, "url", isUrl)
    && ("hdurl" in v.fields ==> IsUrlAt(v.fields, "hdurl", isUrl))
    && IsStringAt(v.fields, "service_version")
  }

  /** The record carries exactly the values the raw object has under the schema's keys. */
  predicate Agrees(a: Apod, v: JsonValue) {
    && v.JObject?
    && "date" in v.fields && v.fields["date"] == JString(a.date)
    && "title" in v.fields && v.fields["title"] == JString(a.title)
    && "explanation" in v.fields && v.fields["explanation"] == JString(a.explanation)
    && "media_type" in v.fields && v.fields["media_type"] == JString(MediaTypeName(a.mediaType))
    && "url" in v.fields && v.fields["url"] == JString(a.url)
    && ("hdurl" in v.fields <==> a.hdurl.Some?)
    && (a.hdurl.Some? ==> v.fields["hdurl"] == JString(a.hdurl.value))
    && "service_version" in v.fields && v.fields["service_version"] == JString(a.serviceVersion)
  }

  // ---------------------------------------------------------------------
  // Field validators
  // ---------------------------------------------------------------------

  /** A required string field. */
  function StringField(obj: map<string, JsonValue>, key: string): (r: Result<string, Issue>)
    ensures r.Success? <==> IsStringAt(obj, key)
    ensures r.Success? ==> obj[key] == JString(r.value)
    ensures r.Failure? ==> r.error.path == [Key(key)]
    ensures r.Failure? ==> (r.error.code == Required <==> key !in obj)
  {
    if key !in obj then Failure(Issue([Key(key)], Required))
    else match obj[key]
      case JString(s) => Success(s)
      case _ => Failure(Issue([Key(key)], InvalidType("string")))
  }

  /** A required string field that must also pass the URL test. */
  function UrlField(obj: map<string, JsonValue>, key: string, isUrl: string -> bool): (r: Result<string, Issue>)
    ensures r.Success? <==> IsUrlAt(obj, key, isUrl)
    ensures r.Success? ==> obj[key] == JString(r.value)
    ensures r.Failure? ==> r.error.path == [Key(key)]
    ensures r.Failure? ==> (r.error.code == Required <==> key !in obj)
  {
    match StringField(obj, key)
    case Failure(issue) => Failure(issue)
    case Success(s) => if isUrl(s) then Success(s) else Failure(Issue([Key(key)], InvalidUrl))
  }

  /** An optional URL field: absent is fine, present must pass as a URL. */
  function OptionalUrlField(obj: map<string, JsonValue>, key: string, isUrl: string -> bool): (r: Result<Option<string>, Issue>)
    ensures r.Success? <==> (key in obj ==> IsUrlAt(obj, key, isUrl))
    ensures r.Success? ==> (r.value.None? <==> key !in obj)
    ensures r.Success? && r.value.Some? ==> obj[key] == JString(r.value.value)
    ensures r.Failure? ==> r.error.path == [Key(key)] && r.error.code != Required
  {
    if key !in obj then Success(None)
    else match UrlField(obj, key, isUrl)
      case Failure(issue) => Failure(issue)
      case Success(s) => Success(Some(s))
  }

  /** The `media_type` enumeration: exactly "image" or "video". */
  function MediaTypeField(obj: map<string, JsonValue>, key: string): (r: Result<MediaType, Issue>)
    ensures r.Success? <==> key in obj && obj[key] in {JString("image"), JString("video")}
    ensures r.Success? ==> obj[key] == JString(MediaTypeName(r.value))
    ensures r.Failure? ==> r.error.path == [Key(key)]
    ensures r.Failure? ==> (r.error.code == Required <==> key !in obj)
  {
    if key !in obj then Failure(Issue([Key(key)], Required))
    else match obj[key]
      case JString(s) =>
        if s == "image" then Success(Image)
        else if s == "video" then Success(Video)
        else Failure(Issue([Key(key)], InvalidEnumValue))
      case _ => Failure(Issue([Key(key)], InvalidType(MediaTypeExpected)))
  }

  function IssuesOf<X>(r: Result<X, Issue>): seq<Issue> {
    if r.Failure? then [r.error] else []
  }

  /** The keys the record schema declares, one constructor each. */
  datatype Field = DateKey | TitleKey | ExplanationKey | MediaTypeKey | UrlKey | HdurlKey | ServiceVersionKey

  /** The fields in declaration order. */
  const SchemaFields := [DateKey, TitleKey, ExplanationKey, MediaTypeKey, UrlKey, HdurlKey, ServiceVersionKey]

  /** The keys the record schema declares, in declaration order. */
  const SchemaKeys := ["date", "title", "explanation", "media_type", "url", "hdurl", "service_version"]

  /** Where a field is declared. */
  function Position(f: Field): (i: nat)
    ensures i < |SchemaFields| && SchemaFields[i] == f
  {
    match f
    case DateKey => 0
    case TitleKey => 1
    case ExplanationKey => 2
    case MediaTypeKey => 3
    case UrlKey => 4
    case HdurlKey => 5
    case ServiceVersionKey => 6
  }

  /** The key a field is stored under: the schema key at the field's position. */
  function KeyName(f: Field): string {
    SchemaKeys[Position(f)]
  }

  /** Every field is one of the declared fields. */
  lemma EveryFieldDeclared()
    ensures forall f :: f in SchemaFields
  {
    forall f ensures f in SchemaFields {
      assert SchemaFields[Position(f)] == f;
    }
  }

  /** Different fields are stored under different keys. */
  lemma KeyNameInjective(f: Field, g: Field)
    requires KeyName(f) == KeyName(g)
    ensures f == g
  {
    var n := KeyName(f);
    assert n[0] == KeyName(g)[0] && |n| == |KeyName(g)|;
  }

  /** The rule the schema states for one field. */
  predicate FieldConforms(obj: map<string, JsonValue>, f: Field, isUrl: string -> bool) {
    var key := KeyName(f);
    match f
    case MediaTypeKey => key in obj && obj[key] in {JString("image"), JString("video")}
    case UrlKey => IsUrlAt(obj, key, isUrl)
    case HdurlKey => key in obj ==> IsUrlAt(obj, key, isUrl)
    case _ => IsStringAt(obj, key)
  }

  /** Some issue of `issues` is at the object key `key`. */
  predicate ReportsKey(issues: seq<Issue>, key: string) {
    exists i :: 0 <= i < |issues| && issues[i].path == [Key(key)]
  }

  /**
   * `issues` report the fields `fields` of `obj`: there is an issue at a
   * field's key exactly when that field is one of `fields` and breaks its
   * rule, every issue is at one of the schema's keys, and an issue is
   * "required" exactly when its key is absent.
   */
  predicate ReportsBrokenKeys(obj: map<string, JsonValue>, fields: seq<Field>, isUrl: string -> bool, issues: seq<Issue>) {
    && (forall f :: f in fields ==> (ReportsKey(issues, KeyName(f)) <==> !FieldConforms(obj, f, isUrl)))
    && (forall f :: f !in fields ==> !ReportsKey(issues, KeyName(f)))
    && (forall i :: 0 <= i < |issues| ==>
          |issues[i].path| == 1 && issues[i].path[0].Key? && issues[i].path[0].name in SchemaKeys
          && (issues[i].code == Required <==> issues[i].path[0].name !in obj))
  }

  /** The issue of one field, if its validator rejects it. */
  function FieldIssues(obj: map<string, JsonValue>, f: Field, isUrl: string -> bool): (r: seq<Issue>)
    ensures r == [] <==> FieldConforms(obj, f, isUrl)
    ensures forall i :: 0 <= i < |r| ==> r[i].path == [Key(KeyName(f))] && (r[i].code == Required <==> KeyName(f) !in obj)
  {
    var key := KeyName(f);
    match f
    case MediaTypeKey => IssuesOf(MediaTypeField(obj, key))
    case UrlKey => IssuesOf(UrlField(obj, key, isUrl))
    case HdurlKey => IssuesOf(OptionalUrlField(obj, key, isUrl))
    case _ => IssuesOf(StringField(obj, key))
  }

  /** An issue at a key of a concatenation is an issue at that key of one of its parts. */
  lemma ReportsKeyConcat(a: seq<Issue>, b: seq<Issue>, key: string)
    ensures ReportsKey(a + b, key) <==> ReportsKey(a, key) || ReportsKey(b, key)
  {
    if ReportsKey(a + b, key) {
      var i :| 0 <= i < |a + b| && (a + b)[i].path == [Key(key)];
      if i >= |a| {
        assert b[i - |a|].path == [Key(key)];
      }
    }
    if ReportsKey(a, key) {
      var i :| 0 <= i < |a| && a[i].path == [Key(key)];
      assert (a + b)[i].path == [Key(key)];
    }
    if ReportsKey(b, key) {
      var i :| 0 <= i < |b| && b[i].path == [Key(key)];
      assert (a + b)[|a| + i].path == [Key(key)];
    }
  }

  /** The issue of one field is reported at that field's key only, and exactly when the field breaks its rule. */
  lemma FieldIssuesReport(obj: map<string, JsonValue>, f: Field, g: Field, isUrl: string -> bool)
    ensures ReportsKey(FieldIssues(obj, f, isUrl), KeyName(g)) <==> f == g && !FieldConforms(obj, f, isUrl)
  {
    var r := FieldIssues(obj, f, isUrl);
    if ReportsKey(r, KeyName(g)) {
      var i :| 0 <= i < |r| && r[i].path == [Key(KeyName(g))];
      assert [Key(KeyName(f))][0] == [Key(KeyName(g))][0];
      KeyNameInjective(f, g);
    }
    if f == g && !FieldConforms(obj, f, isUrl) {
      assert r[0].path == [Key(KeyName(g))];
    }
  }

  /** Every field is stored under one of the schema's keys. */
  lemma KeyNameDeclared(f: Field)
    ensures KeyName(f) in SchemaKeys
  {
    assert SchemaKeys[Position(f)] == KeyName(f);
  }

  /** The issue of the first field, put before those of the other fields, reports all the fields. */
  lemma ReportsBrokenKeysCons(obj: map<string, JsonValue>, fields: seq<Field>, isUrl: string -> bool, rest: seq<Issue>)
    requires fields != [] && ReportsBrokenKeys(obj, fields[1..], isUrl, rest)
    ensures ReportsBrokenKeys(obj, fields, isUrl, FieldIssues(obj, fields[0], isUrl) + rest)
  {
    var head := FieldIssues(obj, fields[0], isUrl);
    forall f ensures ReportsKey(head + rest, KeyName(f)) <==> f in fields && !FieldConforms(obj, f, isUrl) {
      ReportsKeyConcat(head, rest, KeyName(f));
      FieldIssuesReport(obj, fields[0], f, isUrl);
      assert f in fields <==> f == fields[0] || f in fields[1..];
    }
    KeyNameDeclared(fields[0]);
    forall i | 0 <= i < |head + rest| ensures (head + rest)[i].path[0].name in SchemaKeys {
      if i >= |head| {
        assert (head + rest)[i] == rest[i - |head|];
      }
    }
  }

  /**
   * The issues of the fields `fields`, collected in the order of the fields:
   * an issue is reported at a field's key exactly when that field breaks its
   * rule.
   */
  function KeyIssues(obj: map<string, JsonValue>, fields: seq<Field>, isUrl: string -> bool): (r: seq<Issue>)
    ensures r == [] <==> forall f :: f in fields ==> FieldConforms(obj, f, isUrl)
    ensures ReportsBrokenKeys(obj, fields, isUrl, r)
    decreases |fields|
  {
    if fields == [] then []
    else
      var tail := KeyIssues(obj, fields[1..], isUrl);
      ReportsBrokenKeysCons(obj, fields, isUrl, tail);
      FieldIssues(obj, fields[0], isUrl) + tail
  }

  // ---------------------------------------------------------------------
  // The record validator
  // ---------------------------------------------------------------------

  /** An object conforms exactly when each field keeps its own rule. */
  lemma ConformsByKey(v: JsonValue, isUrl: string -> bool)
    requires v.JObject?
    ensures Conforms(v, isUrl) <==> forall f :: FieldConforms(v.fields, f, isUrl)
  {
    var obj := v.fields;
    if Conforms(v, isUrl) {
      forall f ensures FieldConforms(obj, f, isUrl) {
        match f
        case DateKey =>
        case TitleKey =>
        case ExplanationKey =>
        case MediaTypeKey =>
        case UrlKey =>
        case HdurlKey =>
        case ServiceVersionKey =>
      }
    }
    if forall f :: FieldConforms(obj, f, isUrl) {
      assert FieldConforms(obj, DateKey, isUrl) && FieldConforms(obj, TitleKey, isUrl);
      assert FieldConforms(obj, ExplanationKey, isUrl) && FieldConforms(obj, MediaTypeKey, isUrl);
      assert FieldConforms(obj, UrlKey, isUrl) && FieldConforms(obj, HdurlKey, isUrl);
      assert FieldConforms(obj, ServiceVersionKey, isUrl);
    }
  }

  /**
   * Validate one raw value. The issues of the seven keys are collected in
   * declaration order; a value that is not an object has a single issue at
   * the root.
   */
  function ValidateOne(v: JsonValue, isUrl: string -> bool): (r: Result<Apod, seq<Issue>>)
    ensures r.Success? <==> Conforms(v, isUrl)
    ensures r.Success? ==> Agrees(r.value, v)
    ensures r.Failure? ==> r.error != []
    ensures !v.JObject? ==> r == Failure([Issue([], InvalidType("object"))])
    ensures v.JObject? && r.Failure? ==> ReportsBrokenKeys(v.fields, SchemaFields, isUrl, r.error)
  {
    if !v.JObject? then Failure([Issue([], InvalidType("object"))])
    else
      var obj := v.fields;
      var date := StringField(obj, "date");
      var title := StringField(obj, "title");
      var explanation := StringField(obj, "explanation");
      var mediaType := MediaTypeField(obj, "media_type");
      var url := UrlField(obj, "url", isUrl);
      var hdurl := OptionalUrlField(obj, "hdurl", isUrl);
      var serviceVersion := StringField(obj, "service_version");
      if date.Success? && title.Success? && explanation.Success? && mediaType.Success?
         && url.Success? && hdurl.Success? && serviceVersion.Success?
      then
        Success(Apod(date.value, title.value, explanation.value, mediaType.value,
                     url.value, hdurl.value, serviceVersion.value))
      else
        ConformsByKey(v, isUrl);
        EveryFieldDeclared();
        Failure(KeyIssues(obj, SchemaFields, isUrl))
  }

  /** The object a record is the validation of: its fields under the schema's keys. */
  function ToJson(a: Apod): JsonValue {
    var required := map[
      "date" := JString(a.date),
      "title" := JString(a.title),
      "explanation" := JString(a.explanation),
      "media_type" := JString(MediaTypeName(a.mediaType)),
      "url" := JString(a.url),
      "service_version" := JString(a.serviceVersion)];
    JObject(if a.hdurl.Some? then required["hdurl" := JString(a.hdurl.value)] else required)
  }

  /** The record's URLs pass the URL test. */
  predicate UrlsValid(a: Apod, isUrl: string -> bool) {
    isUrl(a.url) && (a.hdurl.Some? ==> isUrl(a.hdurl.value))
  }

  /** Round trip: a record whose URLs pass validates back to itself from its object. */
  lemma RoundTrip(a: Apod, isUrl: string -> bool)
    requires UrlsValid(a, isUrl)
    ensures ValidateOne(ToJson(a), isUrl) == Success(a)
  {
    var r := ValidateOne(ToJson(a), isUrl);
    assert Conforms(ToJson(a), isUrl) by {
      match a.mediaType
      case Image =>
      case Video =>
    }
    assert Agrees(r.value, ToJson(a));
    MediaTypeNameInjective(r.value.mediaType, a.mediaType);
  }

  lemma MediaTypeNameInjective(m: MediaType, n: MediaType)
    requires MediaTypeName(m) == MediaTypeName(n)
    ensures m == n
  {
  }

  /** Two records that agree with the same object are the same record. */
  lemma AgreesUnique(a: Apod, b: Apod, v: JsonValue)
    requires Agrees(a, v) && Agrees(b, v)
    ensures a == b
  {
    MediaTypeNameInjective(a.mediaType, b.mediaType);
  }

  /**
   * Validation keeps exactly the schema's keys: the accepted object, with
   * every other key dropped, is the object of the record.
   */
  lemma ValidateStripsExtraKeys(v: JsonValue, isUrl: string -> bool)
    requires ValidateOne(v, isUrl).Success?
    ensures ToJson(ValidateOne(v, isUrl).value)
            == JObject(map k | k in v.fields && k in SchemaKeys :: v.fields[k])
  {
    var a := ValidateOne(v, isUrl).value;
    var kept := map k | k in v.fields && k in SchemaKeys :: v.fields[k];
    assert ToJson(a).fields.Keys == kept.Keys;
  }

  /** Idempotence: validating the fields of a validated record gives the same record. */
  lemma ValidateIdempotent(v: JsonValue, isUrl: string -> bool)
    requires ValidateOne(v, isUrl).Success?
    ensures ValidateOne(ToJson(ValidateOne(v, isUrl).value), isUrl) == ValidateOne(v, isUrl)
  {
    var a := ValidateOne(v, isUrl).value;
    assert UrlsValid(a, isUrl);
    RoundTrip(a, isUrl);
  }

  /** A field that breaks its rule makes the object fail, with an issue at that field's key. */
  lemma KeyBreakReported(v: JsonValue, f: Field, isUrl: string -> bool)
    requires v.JObject? && !FieldConforms(v.fields, f, isUrl)
    ensures ValidateOne(v, isUrl).Failure?
    ensures ReportsKey(ValidateOne(v, isUrl).error, KeyName(f))
  {
    ConformsByKey(v, isUrl);
    assert f in SchemaFields;
  }

  /** A missing required key (any but `hdurl`) makes validation fail with a "required" issue at that key. */
  lemma MissingKeyReported(v: JsonValue, f: Field, isUrl: string -> bool)
    requires v.JObject? && f != HdurlKey && KeyName(f) !in v.fields
    ensures ValidateOne(v, isUrl).Failure?
    ensures Issue([Key(KeyName(f))], Required) in ValidateOne(v, isUrl).error
  {
    KeyBreakReported(v, f, isUrl);
    var r := ValidateOne(v, isUrl);
    var i :| 0 <= i < |r.error| && r.error[i].path == [Key(KeyName(f))];
    assert r.error[i] == Issue([Key(KeyName(f))], Required);
  }

  /** The "required" issues of the fields, `hdurl` left out, in order. */
  function RequiredIssues(fields: seq<Field>): seq<Issue> {
    if fields == [] then []
    else (if fields[0] == HdurlKey then [] else [Issue([Key(KeyName(fields[0]))], Required)]) + RequiredIssues(fields[1..])
  }

  /** When none of the fields is present, each field but `hdurl` is reported as "required", in order. */
  lemma {:induction false} AbsentKeysRequired(obj: map<string, JsonValue>, fields: seq<Field>, isUrl: string -> bool)
    requires forall f :: f in fields ==> KeyName(f) !in obj
    ensures KeyIssues(obj, fields, isUrl) == RequiredIssues(fields)
    decreases |fields|
  {
    if fields != [] {
      AbsentKeysRequired(obj, fields[1..], isUrl);
      assert KeyName(fields[0]) !in obj;
    }
  }

  /** The "required" issues of the declared fields: all of them but `hdurl`, in declaration order. */
  lemma SchemaRequiredIssues()
    ensures RequiredIssues(SchemaFields)
            == [Issue([Key("date")], Required), Issue([Key("title")], Required),
                Issue([Key("explanation")], Required), Issue([Key("media_type")], Required),
                Issue([Key("url")], Required), Issue([Key("service_version")], Required)]
  {
    var fs := SchemaFields;
    assert RequiredIssues(fs[6..]) == [Issue([Key("service_version")], Required)] by {
      assert fs[6..][1..] == [];
    }
    assert RequiredIssues(fs[5..]) == RequiredIssues(fs[6..]) by {
      assert fs[5..][1..] == fs[6..];
    }
    assert RequiredIssues(fs[4..]) == [Issue([Key("url")], Required)] + RequiredIssues(fs[5..]) by {
      assert fs[4..][1..] == fs[5..];
    }
    assert RequiredIssues(fs[3..]) == [Issue([Key("media_type")], Required)] + RequiredIssues(fs[4..]) by {
      assert fs[3..][1..] == fs[4..];
    }
    assert RequiredIssues(fs[2..]) == [Issue([Key("explanation")], Required)] + RequiredIssues(fs[3..]) by {
      assert fs[2..][1..] == fs[3..];
    }
    assert RequiredIssues(fs[1..]) == [Issue([Key("title")], Required)] + RequiredIssues(fs[2..]) by {
      assert fs[1..][1..] == fs[2..];
    }
  }

  /** An object with none of the schema's keys reports every required key, in order. */
  lemma UnrelatedObjectRejected(isUrl: string -> bool)
    ensures ValidateOne(JObject(map["invalid" := JString("data")]), isUrl)
            == Failure([Issue([Key("date")], Required), Issue([Key("title")], Required),
                        Issue([Key("explanation")], Required), Issue([Key("media_type")], Required),
                        Issue([Key("url")], Required), Issue([Key("service_version")], Required)])
  {
    var obj := map["invalid" := JString("data")];
    forall f ensures KeyName(f) !in obj {
      assert |KeyName(f)| != |"invalid"|;
    }
    assert ValidateOne(JObject(obj), isUrl) == Failure(KeyIssues(obj, SchemaFields, isUrl)) by {
      assert StringField(obj, "date").Failure?;
    }
    AbsentKeysRequired(obj, SchemaFields, isUrl);
    SchemaRequiredIssues();
  }

  // ---------------------------------------------------------------------
  // The array validator
  // ---------------------------------------------------------------------

  /** An issue of the element at position `n`, as the array reports it: under that position. */
  function AtPosition(n: nat, issue: Issue): Issue {
    Issue([Index(n)] + issue.path, issue.code)
  }

  /** The issues of one element, with the element's position put in front of each path. */
  function AtIndex(n: nat, issues: seq<Issue>): (r: seq<Issue>)
    ensures |r| == |issues|
    ensures forall j :: 0 <= j < |r| ==> r[j] == AtPosition(n, issues[j])
  {
    if issues == [] then []
    else [AtPosition(n, issues[0])] + AtIndex(n, issues[1..])
  }

  /** Every issue of `issues` is under the position of a failing element of `items` (from position `offset` on). */
  predicate UnderFailingElements(items: seq<JsonValue>, offset: nat, isUrl: string -> bool, issues: seq<Issue>) {
    forall k :: 0 <= k < |issues| ==>
      |issues[k].path| > 0 && issues[k].path[0].Index?
      && offset <= issues[k].path[0].index < offset + |items|
      && ValidateOne(items[issues[k].path[0].index - offset], isUrl).Failure?
  }

  /** Every issue of every failing element of `items` (from position `offset` on) is among `issues`, under its position. */
  predicate ReportsEveryElement(items: seq<JsonValue>, offset: nat, isUrl: string -> bool, issues: seq<Issue>) {
    forall i, j :: 0 <= i < |items| && ValidateOne(items[i], isUrl).Failure? && 0 <= j < |ValidateOne(items[i], isUrl).error| ==>
      AtPosition(offset + i, ValidateOne(items[i], isUrl).error[j]) in issues
  }

  /** The issues of the first element, put before those of the rest, are under failing elements. */
  lemma UnderFailingElementsCons(items: seq<JsonValue>, offset: nat, isUrl: string -> bool, rest: Result<seq<Apod>, seq<Issue>>)
    requires items != []
    requires rest.Failure? ==> UnderFailingElements(items[1..], offset + 1, isUrl, rest.error)
    ensures var head := ValidateOne(items[0], isUrl);
            UnderFailingElements(items, offset, isUrl,
              (if head.Failure? then AtIndex(offset, head.error) else []) + (if rest.Failure? then rest.error else []))
  {
    var head := ValidateOne(items[0], isUrl);
    var first: seq<Issue> := if head.Failure? then AtIndex(offset, head.error) else [];
    var others: seq<Issue> := if rest.Failure? then rest.error else [];
    forall k | 0 <= k < |first + others|
      ensures |(first + others)[k].path| > 0 && (first + others)[k].path[0].Index?
              && offset <= (first + others)[k].path[0].index < offset + |items|
              && ValidateOne(items[(first + others)[k].path[0].index - offset], isUrl).Failure?
    {
      if k < |first| {
        assert head.Failure? && first == AtIndex(offset, head.error);
        assert (first + others)[k] == first[k] == AtPosition(offset, head.error[k]);
        assert first[k].path[0].index - offset == 0;
      } else {
        var issue := others[k - |first|];
        assert (first + others)[k] == issue;
        assert items[1..][issue.path[0].index - (offset + 1)] == items[issue.path[0].index - offset];
      }
    }
    assert UnderFailingElements(items, offset, isUrl, first + others);
  }

  /** The issues of the first element, put before those of the rest, report every failing element. */
  lemma ReportsEveryElementCons(items: seq<JsonValue>, offset: nat, isUrl: string -> bool, rest: Result<seq<Apod>, seq<Issue>>)
    requires items != []
    requires rest.Success? ==> forall i :: 0 <= i < |items| - 1 ==> ValidateOne(items[1..][i], isUrl).Success?
    requires rest.Failure? ==> ReportsEveryElement(items[1..], offset + 1, isUrl, rest.error)
    ensures var head := ValidateOne(items[0], isUrl);
            ReportsEveryElement(items, offset, isUrl,
              (if head.Failure? then AtIndex(offset, head.error) else []) + (if rest.Failure? then rest.error else []))
  {
    var head := ValidateOne(items[0], isUrl);
    var issues := (if head.Failure? then AtIndex(offset, head.error) else []) + (if rest.Failure? then rest.error else []);
    forall i, j | 0 <= i < |items| && ValidateOne(items[i], isUrl).Failure? && 0 <= j < |ValidateOne(items[i], isUrl).error|
      ensures AtPosition(offset + i, ValidateOne(items[i], isUrl).error[j]) in issues
    {
      if i == 0 {
        assert AtIndex(offset, head.error)[j] == AtPosition(offset + i, ValidateOne(items[i], isUrl).error[j]);
      } else {
        assert items[1..][i - 1] == items[i];
      }
    }
  }

  /**
   * Validate `items`, the elements from position `offset` on of an array:
   * every element is validated and the issues of all failing elements are
   * collected in element order.
   */
  function ValidateItems(items: seq<JsonValue>, offset: nat, isUrl: string -> bool): (r: Result<seq<Apod>, seq<Issue>>)
    ensures r.Success? <==> forall i :: 0 <= i < |items| ==> ValidateOne(items[i], isUrl).Success?
    ensures r.Success? ==> |r.value| == |items|
    ensures r.Success? ==> forall i :: 0 <= i < |items| ==> ValidateOne(items[i], isUrl) == Success(r.value[i])
    ensures r.Failure? ==> r.error != []
    ensures r.Failure? ==> UnderFailingElements(items, offset, isUrl, r.error)
    ensures r.Failure? ==> ReportsEveryElement(items, offset, isUrl, r.error)
    decreases |items|
  {
    if items == [] then Success([])
    else
      var head := ValidateOne(items[0], isUrl);
      var tail := ValidateItems(items[1..], offset + 1, isUrl);
      if head.Success? && tail.Success? then Success([head.value] + tail.value)
      else
        UnderFailingElementsCons(items, offset, isUrl, tail);
        ReportsEveryElementCons(items, offset, isUrl, tail);
        Failure((if head.Failure? then AtIndex(offset, head.error) else [])
                + (if tail.Failure? then tail.error else []))
  }

  /** Validate an array of records; any other value has a single issue at the root. */
  function ValidateMany(v: JsonValue, isUrl: string -> bool): (r: Result<seq<Apod>, seq<Issue>>)
    ensures r.Success? <==> v.JArray? && forall i :: 0 <= i < |v.items| ==> ValidateOne(v.items[i], isUrl).Success?
    ensures r.Success? ==> |r.value| == |v.items|
    ensures r.Success? ==> forall i :: 0 <= i < |v.items| ==> ValidateOne(v.items[i], isUrl) == Success(r.value[i])
    ensures r.Failure? ==> r.error != []
    ensures v.JArray? && r.Failure? ==> UnderFailingElements(v.items, 0, isUrl, r.error)
    ensures v.JArray? && r.Failure? ==> ReportsEveryElement(v.items, 0, isUrl, r.error)
    ensures !v.JArray? ==> r == Failure([Issue([], InvalidType("array"))])
  {
    if v.JArray? then ValidateItems(v.items, 0, isUrl)
    else Failure([Issue([], InvalidType("array"))])
  }

  /** A failing element is reported: some issue of the array is under that element's position. */
  lemma FailingElementReported(v: JsonValue, i: nat, isUrl: string -> bool)
    requires v.JArray? && i < |v.items| && ValidateOne(v.items[i], isUrl).Failure?
    ensures ValidateMany(v, isUrl).Failure?
    ensures exists k :: 0 <= k < |ValidateMany(v, isUrl).error| && ValidateMany(v, isUrl).error[k].path[..1] == [Index(i)]
  {
    var e := ValidateOne(v.items[i], isUrl).error;
    var issue := AtPosition(i, e[0]);
    assert issue in ValidateMany(v, isUrl).error;
    var k :| 0 <= k < |ValidateMany(v, isUrl).error| && ValidateMany(v, isUrl).error[k] == issue;
    assert issue.path[..1] == [Index(i)];
  }

  /** An empty array is a valid, empty sequence of records. */
  lemma EmptyArrayAccepted(isUrl: string -> bool)
    ensures ValidateMany(JArray([]), isUrl) == Success([])
  {
  }

  /** The array of the objects of records whose URLs pass validates back to those records, in order. */
  lemma {:induction false} ManyRoundTrip(records: seq<Apod>, isUrl: string -> bool)
    requires forall i :: 0 <= i < |records| ==> UrlsValid(records[i], isUrl)
    ensures ValidateMany(JArray(seq(|records|, i requires 0 <= i < |records| => ToJson(records[i]))), isUrl)
            == Success(records)
  {
    var items := seq(|records|, i requires 0 <= i < |records| => ToJson(records[i]));
    var r := ValidateMany(JArray(items), isUrl);
    forall i | 0 <= i < |records|
      ensures ValidateOne(items[i], isUrl) == Success(records[i])
    {
      RoundTrip(records[i], isUrl);
    }
    assert r.Success?;
    assert r.value == records;
  }
}
