/**
 * The table declarations of the shared schema, the insert shapes derived from them
 * by omitting server-generated columns, and the shape check that the request
 * handlers run on creation bodies.
 */
module Schema {
  import opened Common
  import opened Js

  /** The declared columns of the three tables, by their property name. */
  datatype Field =
    | Id | CreatedAt
    | CustomerName | Status | Messages | SentimentLabel | Duration
    | ConversationId | Transcription | AudioData | AiResponse | Confidence | Latency
    | Name | Tier | AccountAge | LastContact | SentimentHistory | Language | PreviousIssues

  /** The property key a field has in a record. */
  function Key(f: Field): string
  {
    match f
    case Id => "id"
    case CreatedAt => "createdAt"
    case CustomerName => "customerName"
    case Status => "status"
    case Messages => "messages"
    case SentimentLabel => "sentiment"
    case Duration => "duration"
    case ConversationId => "conversationId"
    case Transcription => "transcription"
    case AudioData => "audioData"
    case AiResponse => "aiResponse"
    case Confidence => "confidence"
    case Latency => "latency"
    case Name => "name"
    case Tier => "tier"
    case AccountAge => "accountAge"
    case LastContact => "lastContact"
    case SentimentHistory => "sentimentHistory"
    case Language => "language"
    case PreviousIssues => "previousIssues"
  }

  datatype SqlType = SqlVarchar | SqlText | SqlInteger | SqlJsonb | SqlTimestamp

  /** A column default: none, a literal, a generated UUID, or the current time. */
  datatype Default = NoDefault | Literal(value: Value) | RandomUuid | Now

  /** One column: its field, type, NOT NULL flag (primary keys are NOT NULL) and default. */
  datatype Column = Column(field: Field, sqlType: SqlType, notNull: bool, default: Default)

  /** Status and sentiment are plain text; the labels they are meant to hold appear only in comments. */
  const Conversations: seq<Column> := [
    Column(Id, SqlVarchar, true, RandomUuid),
    Column(CustomerName, SqlText, true, NoDefault),
    Column(Status, SqlText, true, Literal(VStr("active"))),
    Column(Messages, SqlJsonb, true, Literal(VArr([]))),
    Column(SentimentLabel, SqlText, false, Literal(VStr("neutral"))),
    Column(Duration, SqlInteger, false, Literal(VNum(0.0))),
    Column(CreatedAt, SqlTimestamp, false, Now)
  ]

  /** `conversationId` references the conversations' `id`; only a database would enforce that. */
  const Sessions: seq<Column> := [
    Column(Id, SqlVarchar, true, RandomUuid),
    Column(ConversationId, SqlVarchar, false, NoDefault),
    Column(Transcription, SqlText, false, NoDefault),
    Column(AudioData, SqlText, false, NoDefault),
    Column(AiResponse, SqlText, false, NoDefault),
    Column(Confidence, SqlInteger, false, Literal(VNum(0.0))),
    Column(Latency, SqlInteger, false, Literal(VNum(0.0))),
    Column(CreatedAt, SqlTimestamp, false, Now)
  ]

  /** Tier is plain text as well. */
  const Customers: seq<Column> := [
    Column(Id, SqlVarchar, true, RandomUuid),
    Column(Name, SqlText, true, NoDefault),
    Column(Tier, SqlText, false, Literal(VStr("standard"))),
    Column(AccountAge, SqlText, false, NoDefault),
    Column(LastContact, SqlTimestamp, false, NoDefault),
    Column(SentimentHistory, SqlText, false, Literal(VStr("positive"))),
    Column(Language, SqlText, false, Literal(VStr("English"))),
    Column(PreviousIssues, SqlJsonb, false, Literal(VArr([])))
  ]

  /** The fields of the columns from position `i` on. */
  function FieldsFrom(columns: seq<Column>, i: nat): set<Field>
    requires i <= |columns|
    decreases |columns| - i
  {
    if i == |columns| then {} else {columns[i].field} + FieldsFrom(columns, i + 1)
  }

  function Fields(columns: seq<Column>): set<Field>
  {
    FieldsFrom(columns, 0)
  }

  /** The record keys of the columns from position `i` on. */
  function KeysFrom(columns: seq<Column>, i: nat): set<string>
    requires i <= |columns|
    decreases |columns| - i
  {
    if i == |columns| then {} else {Key(columns[i].field)} + KeysFrom(columns, i + 1)
  }

  function Keys(columns: seq<Column>): set<string>
  {
    KeysFrom(columns, 0)
  }

  /** The columns from position `i` on whose field is not omitted, in declaration order. */
  function OmitFrom(columns: seq<Column>, omitted: set<Field>, i: nat): (r: seq<Column>)
    requires i <= |columns|
    ensures |r| <= |columns| - i
    ensures forall c :: c in r ==> c.field !in omitted
    decreases |columns| - i
  {
    if i == |columns| then []
    else if columns[i].field in omitted then OmitFrom(columns, omitted, i + 1)
    else [columns[i]] + OmitFrom(columns, omitted, i + 1)
  }

  /** `.omit({...})`: the shape without the omitted fields. */
  function Omit(columns: seq<Column>, omitted: set<Field>): (r: seq<Column>)
    ensures |r| <= |columns|
    ensures forall c :: c in r ==> c.field !in omitted
  {
    OmitFrom(columns, omitted, 0)
  }

  /** The insert shapes: each table without the columns the server generates. */
  const InsertConversation := Omit(Conversations, {Id, CreatedAt})
  const InsertSession := Omit(Sessions, {Id, CreatedAt})
  const InsertCustomer := Omit(Customers, {Id})

  /** An insert field must be given when its column is NOT NULL and has no default. */
  predicate Required(c: Column)
  {
    c.notNull && c.default == NoDefault
  }

  /** The fields from position `i` on that must be supplied. */
  function RequiredFrom(columns: seq<Column>, i: nat): set<Field>
    requires i <= |columns|
    decreases |columns| - i
  {
    if i == |columns| then {}
    else (if Required(columns[i]) then {columns[i].field} else {}) + RequiredFrom(columns, i + 1)
  }

  function RequiredFields(columns: seq<Column>): set<Field>
  {
    RequiredFrom(columns, 0)
  }

  /** The declared default of the first column for `f` from position `i` on; none when there is none. */
  function DefaultFrom(columns: seq<Column>, f: Field, i: nat): Default
    requires i <= |columns|
    decreases |columns| - i
  {
    if i == |columns| then NoDefault
    else if columns[i].field == f then columns[i].default
    else DefaultFrom(columns, f, i + 1)
  }

  function DefaultOf(columns: seq<Column>, f: Field): Default
  {
    DefaultFrom(columns, f, 0)
  }

  lemma {:induction false} FieldsFromMembers(columns: seq<Column>, i: nat, f: Field)
    requires i <= |columns|
    ensures f in FieldsFrom(columns, i) <==> exists j :: i <= j < |columns| && columns[j].field == f
    decreases |columns| - i
  {
    if i < |columns| {
      FieldsFromMembers(columns, i + 1, f);
    }
  }

  /** A field belongs to the columns exactly when some column declares it. */
  lemma FieldsAreColumnFields(columns: seq<Column>, f: Field)
    ensures f in Fields(columns) <==> exists c :: c in columns && c.field == f
  {
    FieldsFromMembers(columns, 0, f);
    if exists c :: c in columns && c.field == f {
      var c :| c in columns && c.field == f;
      var j :| 0 <= j < |columns| && columns[j] == c;
    }
  }

  lemma {:induction false} KeysFromMembers(columns: seq<Column>, i: nat, k: string)
    requires i <= |columns|
    ensures k in KeysFrom(columns, i) <==> exists j :: i <= j < |columns| && Key(columns[j].field) == k
    decreases |columns| - i
  {
    if i < |columns| {
      KeysFromMembers(columns, i + 1, k);
      var key := Key(columns[i].field);
      assert KeysFrom(columns, i) == {key} + KeysFrom(columns, i + 1);
      if exists j :: i <= j < |columns| && Key(columns[j].field) == k {
        var j :| i <= j < |columns| && Key(columns[j].field) == k;
        if j == i {
          assert k == key;
        } else {
          assert k in KeysFrom(columns, i + 1);
        }
      }
    }
  }

  /** A key is a column key exactly when some column carries it. */
  lemma KeysAreColumnKeys(columns: seq<Column>, k: string)
    ensures k in Keys(columns) <==> exists c :: c in columns && Key(c.field) == k
  {
    KeysFromMembers(columns, 0, k);
    if exists c :: c in columns && Key(c.field) == k {
      var c :| c in columns && Key(c.field) == k;
      var j :| 0 <= j < |columns| && columns[j] == c;
    }
  }

  lemma {:induction false} OmitFromMembers(columns: seq<Column>, omitted: set<Field>, i: nat, c: Column)
    requires i <= |columns|
    ensures c in OmitFrom(columns, omitted, i) <==> (exists j :: i <= j < |columns| && columns[j] == c) && c.field !in omitted
    decreases |columns| - i
  {
    if i < |columns| {
      OmitFromMembers(columns, omitted, i + 1, c);
    }
  }

  /** Omitting fields keeps exactly the columns of the other fields. */
  lemma OmitColumns(columns: seq<Column>, omitted: set<Field>, c: Column)
    ensures c in Omit(columns, omitted) <==> c in columns && c.field !in omitted
  {
    OmitFromMembers(columns, omitted, 0, c);
    if c in columns {
      var j :| 0 <= j < |columns| && columns[j] == c;
    }
  }

  /** Omitting fields removes exactly those fields and keeps the others. */
  lemma OmitFields(columns: seq<Column>, omitted: set<Field>)
    ensures Fields(Omit(columns, omitted)) == Fields(columns) - omitted
  {
    forall f
      ensures f in Fields(Omit(columns, omitted)) <==> f in Fields(columns) && f !in omitted
    {
      FieldsAreColumnFields(columns, f);
      FieldsAreColumnFields(Omit(columns, omitted), f);
      if f in Fields(columns) && f !in omitted {
        var c :| c in columns && c.field == f;
        OmitColumns(columns, omitted, c);
      }
      if f in Fields(Omit(columns, omitted)) {
        var c :| c in Omit(columns, omitted) && c.field == f;
        OmitColumns(columns, omitted, c);
      }
    }
  }

  lemma {:induction false} DefaultFromShift(c: Column, rest: seq<Column>, f: Field, j: nat)
    requires j <= |rest|
    ensures DefaultFrom([c] + rest, f, j + 1) == DefaultFrom(rest, f, j)
    decreases |rest| - j
  {
    if j < |rest| {
      DefaultFromShift(c, rest, f, j + 1);
    }
  }

  lemma {:induction false} OmitFromKeepsDefaults(columns: seq<Column>, omitted: set<Field>, f: Field, i: nat)
    requires i <= |columns|
    requires f !in omitted
    ensures DefaultOf(OmitFrom(columns, omitted, i), f) == DefaultFrom(columns, f, i)
    decreases |columns| - i
  {
    if i < |columns| {
      OmitFromKeepsDefaults(columns, omitted, f, i + 1);
      if columns[i].field !in omitted {
        DefaultFromShift(columns[i], OmitFrom(columns, omitted, i + 1), f, 0);
      }
    }
  }

  /** Omitting other fields keeps the declared default of a field. */
  lemma OmitKeepsDefaults(columns: seq<Column>, omitted: set<Field>, f: Field)
    requires f !in omitted
    ensures DefaultOf(Omit(columns, omitted), f) == DefaultOf(columns, f)
  {
    OmitFromKeepsDefaults(columns, omitted, f, 0);
  }

  /**
   * A value fits a column. A jsonb column takes any JSON value, null included, whatever
   * its NOT NULL flag; any other column takes null only where it is nullable, and
   * otherwise a value of its JSON kind.
   */
  predicate Accepts(c: Column, v: Value): (a: bool)
    ensures c.sqlType == SqlJsonb ==> a
    ensures v == VNull ==> (a <==> !c.notNull || c.sqlType == SqlJsonb)
    ensures v != VNull && (c.sqlType == SqlVarchar || c.sqlType == SqlText) ==> (a <==> v.VStr?)
    ensures v != VNull && c.sqlType == SqlInteger ==> (a <==> v.VNum?)
    ensures v != VNull && c.sqlType == SqlTimestamp ==> (a <==> v.VDate?)
  {
    if c.sqlType == SqlJsonb then true
    else if v == VNull then !c.notNull
    else match c.sqlType
      case SqlVarchar => v.VStr?
      case SqlText => v.VStr?
      case SqlInteger => v.VNum?
      case SqlJsonb => true
      case SqlTimestamp => v.VDate?
  }

  /** The body satisfies one column of the shape: a given value fits, and only optional fields are absent. */
  predicate FieldOk(c: Column, body: Record): (ok: bool)
    ensures Key(c.field) !in body ==> (ok <==> !c.notNull || c.default != NoDefault)
    ensures Key(c.field) in body ==> (ok <==> Accepts(c, body[Key(c.field)]))
  {
    if Key(c.field) in body then Accepts(c, body[Key(c.field)]) else !Required(c)
  }

  /** One violated field: `missing` when a required field is absent, otherwise its value has the wrong kind. */
  datatype Issue = Issue(path: string, missing: bool)

  /** The paths of a list of issues, in order. */
  function Paths(issues: seq<Issue>): (p: seq<string>)
    ensures |p| == |issues| && forall i :: 0 <= i < |issues| ==> p[i] == issues[i].path
  {
    if issues == [] then [] else [issues[0].path] + Paths(issues[1..])
  }

  /** The violations of the shape, one per offending column, in declaration order. */
  function Issues(columns: seq<Column>, body: Record): (r: seq<Issue>)
    ensures r == [] <==> forall c :: c in columns ==> FieldOk(c, body)
    ensures forall issue :: issue in r ==>
      exists c :: c in columns && Key(c.field) == issue.path && !FieldOk(c, body) && issue.missing == (issue.path !in body)
    ensures forall c :: c in columns && !FieldOk(c, body) ==> Key(c.field) in Paths(r)
  {
    if columns == [] then []
    else
      var c := columns[0];
      var rest := Issues(columns[1..], body);
      assert forall d :: d in columns ==> d == c || d in columns[1..] by {
        forall d | d in columns ensures d == c || d in columns[1..] {
          var j :| 0 <= j < |columns| && columns[j] == d;
          if j > 0 { assert columns[1..][j - 1] == d; }
        }
      }
      if FieldOk(c, body) then rest
      else
        var issue := Issue(Key(c.field), Key(c.field) !in body);
        assert ([issue] + rest)[1..] == rest;
        [issue] + rest
  }

  /**
   * `schema.parse(body)`: either every field of the shape is fine and the result is
   * the body with keys outside the shape stripped, or the list of violations.
   */
  function Parse(columns: seq<Column>, body: Record): (r: Result<Record, seq<Issue>>)
    ensures r.Ok? <==> forall c :: c in columns ==> FieldOk(c, body)
    ensures r.Ok? ==> r.value.Keys == body.Keys * Keys(columns)
    ensures r.Ok? ==> forall k :: k in r.value ==> r.value[k] == body[k]
    ensures r.Err? ==> r.error != [] && r.error == Issues(columns, body)
  {
    var issues := Issues(columns, body);
    if issues == [] then Ok(map k | k in body && k in Keys(columns) :: body[k]) else Err(issues)
  }

  /** A body that already has the shape, and nothing else, parses to itself. */
  lemma ParseRoundTrip(columns: seq<Column>, body: Record)
    requires body.Keys <= Keys(columns)
    requires forall c :: c in columns ==> FieldOk(c, body)
    ensures Parse(columns, body) == Ok(body)
  {
    var d := map k | k in body && k in Keys(columns) :: body[k];
    assert d == body;
  }

  /** Parsing what a parse returned gives it back unchanged. */
  lemma ParseIdempotent(columns: seq<Column>, body: Record)
    requires Parse(columns, body).Ok?
    ensures Parse(columns, Parse(columns, body).value) == Parse(columns, body)
  {
    var d := Parse(columns, body).value;
    forall c | c in columns
      ensures FieldOk(c, d)
    {
      KeysAreColumnKeys(columns, Key(c.field));
    }
    ParseRoundTrip(columns, d);
  }

  /** The conversation insert shape is the conversation columns without `id` and `createdAt`. */
  lemma ConversationInsertShape()
    ensures Fields(InsertConversation) == Fields(Conversations) - {Id, CreatedAt}
    ensures Fields(InsertConversation) == {CustomerName, Status, Messages, SentimentLabel, Duration}
    ensures RequiredFields(InsertConversation) == {CustomerName}
  {
    OmitFields(Conversations, {Id, CreatedAt});
    ConversationFields();
    ConversationRequired();
  }

  lemma ConversationFields()
    ensures Fields(Conversations) == {Id, CustomerName, Status, Messages, SentimentLabel, Duration, CreatedAt}
  {
  }

  lemma ConversationRequired()
    ensures RequiredFields(InsertConversation) == {CustomerName}
  {
  }

  /** The session insert shape is the session columns without `id` and `createdAt`; no field is required. */
  lemma SessionInsertShape()
    ensures Fields(InsertSession) == Fields(Sessions) - {Id, CreatedAt}
    ensures Fields(InsertSession) == {ConversationId, Transcription, AudioData, AiResponse, Confidence, Latency}
    ensures RequiredFields(InsertSession) == {}
  {
    OmitFields(Sessions, {Id, CreatedAt});
    SessionFields();
    SessionRequired();
  }

  lemma SessionFields()
    ensures Fields(Sessions) == {Id, ConversationId, Transcription, AudioData, AiResponse, Confidence, Latency, CreatedAt}
  {
  }

  lemma SessionRequired()
    ensures RequiredFields(InsertSession) == {}
  {
  }

  /** The customer insert shape omits only `id`; customers have no creation time at all. */
  lemma CustomerInsertShape()
    ensures Fields(InsertCustomer) == Fields(Customers) - {Id}
    ensures CreatedAt !in Fields(Customers)
    ensures RequiredFields(InsertCustomer) == {Name}
  {
    OmitFields(Customers, {Id});
    CustomerRequired();
    CustomersHaveNoCreationTime();
  }

  lemma CustomersHaveNoCreationTime()
    ensures CreatedAt !in Fields(Customers)
  {
  }

  lemma CustomerRequired()
    ensures RequiredFields(InsertCustomer) == {Name}
  {
  }

  /** Only `Id` has the key `id` and only `CreatedAt` has the key `createdAt`. */
  lemma ServerKeys(f: Field)
    ensures Key(f) == "id" <==> f == Id
    ensures Key(f) == "createdAt" <==> f == CreatedAt
  {
  }

  /** A parsed creation body never carries `id` or `createdAt`, whatever the request sent. */
  lemma ParsedBodyHasNoServerFields(body: Record)
    requires Parse(InsertConversation, body).Ok?
    ensures "id" !in Parse(InsertConversation, body).value
    ensures "createdAt" !in Parse(InsertConversation, body).value
  {
    forall k | k in {"id", "createdAt"} && k in Keys(InsertConversation)
      ensures false
    {
      KeysAreColumnKeys(InsertConversation, k);
      var c :| c in InsertConversation && Key(c.field) == k;
      OmitColumns(Conversations, {Id, CreatedAt}, c);
      ServerKeys(c.field);
    }
  }

  /** Of the conversation columns only the customer name must be supplied. */
  lemma OnlyNameRequired(c: Column)
    requires c in Conversations && Required(c)
    ensures c.field == CustomerName
  {
  }

  /** Only `CustomerName` has the key `customerName`. */
  lemma NameKey(f: Field)
    ensures Key(f) == "customerName" <==> f == CustomerName
  {
  }

  /** A body holding just a customer name is a valid conversation insert, and parses to itself. */
  lemma NameOnlyIsValid(name: string)
    ensures Parse(InsertConversation, map["customerName" := VStr(name)]) == Ok(map["customerName" := VStr(name)])
  {
    var body := map["customerName" := VStr(name)];
    var named := Conversations[1];
    OmitColumns(Conversations, {Id, CreatedAt}, named);
    assert named in InsertConversation && Key(named.field) == "customerName";
    KeysAreColumnKeys(InsertConversation, "customerName");
    assert body.Keys == {"customerName"};
    forall c | c in InsertConversation
      ensures FieldOk(c, body)
    {
      NameOnlyFieldOk(c, body, name);
    }
    ParseRoundTrip(InsertConversation, body);
  }

  /** Each conversation insert column accepts a body holding just a name. */
  lemma NameOnlyFieldOk(c: Column, body: Record, name: string)
    requires c in InsertConversation
    requires body == map["customerName" := VStr(name)]
    ensures FieldOk(c, body)
  {
    OmitColumns(Conversations, {Id, CreatedAt}, c);
    NameKey(c.field);
    if c.field != CustomerName && Required(c) {
      OnlyNameRequired(c);
    }
  }

  /** Only `Messages` has the key `messages`. */
  lemma MessagesKey(f: Field)
    ensures Key(f) == "messages" <==> f == Messages
  {
  }

  /** The conversation messages column is a jsonb column. */
  lemma MessagesColumnIsJsonb(c: Column)
    requires c in Conversations && c.field == Messages
    ensures c.sqlType == SqlJsonb
  {
  }

  /** Each conversation insert column accepts a name together with null messages. */
  lemma NullMessagesFieldOk(c: Column, body: Record, name: string)
    requires c in InsertConversation
    requires body == map["customerName" := VStr(name), "messages" := VNull]
    ensures FieldOk(c, body)
  {
    OmitColumns(Conversations, {Id, CreatedAt}, c);
    NameKey(c.field);
    MessagesKey(c.field);
    if c.field == Messages {
      MessagesColumnIsJsonb(c);
    } else if c.field != CustomerName && Required(c) {
      OnlyNameRequired(c);
    }
  }

  /** `messages` is NOT NULL, yet as a jsonb column it takes null like any other JSON value. */
  lemma NullMessagesAccepted(name: string)
    ensures var body := map["customerName" := VStr(name), "messages" := VNull];
      Parse(InsertConversation, body) == Ok(body)
  {
    var body := map["customerName" := VStr(name), "messages" := VNull];
    OmitColumns(Conversations, {Id, CreatedAt}, Conversations[1]);
    OmitColumns(Conversations, {Id, CreatedAt}, Conversations[3]);
    var named, listed := Conversations[1], Conversations[3];
    assert named in InsertConversation && Key(named.field) == "customerName";
    assert listed in InsertConversation && Key(listed.field) == "messages";
    KeysAreColumnKeys(InsertConversation, "customerName");
    KeysAreColumnKeys(InsertConversation, "messages");
    assert body.Keys == {"customerName", "messages"};
    forall c | c in InsertConversation
      ensures FieldOk(c, body)
    {
      NullMessagesFieldOk(c, body, name);
    }
    ParseRoundTrip(InsertConversation, body);
  }

  /** The declared conversation defaults; the customer name has none. */
  lemma ConversationDefaults()
    ensures DefaultOf(Conversations, Status) == Literal(VStr("active"))
    ensures DefaultOf(Conversations, Messages) == Literal(VArr([]))
    ensures DefaultOf(Conversations, SentimentLabel) == Literal(VStr("neutral"))
    ensures DefaultOf(Conversations, Duration) == Literal(VNum(0.0))
    ensures DefaultOf(Conversations, CustomerName) == NoDefault
  {
  }

  /** The declared session defaults. */
  lemma SessionDefaults()
    ensures DefaultOf(Sessions, Confidence) == Literal(VNum(0.0))
    ensures DefaultOf(Sessions, Latency) == Literal(VNum(0.0))
  {
  }

  /** The declared customer defaults; the name has none. */
  lemma CustomerDefaults()
    ensures DefaultOf(Customers, Tier) == Literal(VStr("standard"))
    ensures DefaultOf(Customers, SentimentHistory) == Literal(VStr("positive"))
    ensures DefaultOf(Customers, Language) == Literal(VStr("English"))
    ensures DefaultOf(Customers, PreviousIssues) == Literal(VArr([]))
    ensures DefaultOf(Customers, Name) == NoDefault
  {
  }

  /** Only `Status` has the key `status` and only `SentimentLabel` has the key `sentiment`. */
  lemma LabelKeys(f: Field)
    ensures Key(f) == "status" <==> f == Status
    ensures Key(f) == "sentiment" <==> f == SentimentLabel
  {
  }

  /** The conversation status and sentiment columns are plain text columns. */
  lemma LabelColumnsAreText(c: Column)
    requires c in Conversations && (c.field == Status || c.field == SentimentLabel)
    ensures c.sqlType == SqlText
  {
  }

  /** Replacing the value of a text-only key by any string keeps a valid body valid. */
  lemma {:induction false} AnyStringForTextKey(columns: seq<Column>, body: Record, k: string, s: string)
    requires Parse(columns, body).Ok?
    requires forall c :: c in columns && Key(c.field) == k ==> c.sqlType == SqlText
    ensures Parse(columns, body[k := VStr(s)]).Ok?
  {
    forall c | c in columns
      ensures FieldOk(c, body[k := VStr(s)])
    {
      assert FieldOk(c, body);
    }
  }

  /** Status and sentiment take any string: a valid body stays valid whatever labels it carries. */
  lemma LabelsAreFreeText(body: Record, status: string, sentiment: string)
    requires Parse(InsertConversation, body).Ok?
    ensures Parse(InsertConversation, body["status" := VStr(status)]["sentiment" := VStr(sentiment)]).Ok?
  {
    forall c | c in InsertConversation && (Key(c.field) == "status" || Key(c.field) == "sentiment")
      ensures c.sqlType == SqlText
    {
      OmitColumns(Conversations, {Id, CreatedAt}, c);
      LabelKeys(c.field);
      LabelColumnsAreText(c);
    }
    AnyStringForTextKey(InsertConversation, body, "status", status);
    AnyStringForTextKey(InsertConversation, body["status" := VStr(status)], "sentiment", sentiment);
  }
}
