/** The flat table entity an entry is stored as: absent optional fields are omitted keys. */
module Codec {
  import opened Options
  import opened Entries

  datatype Key =
    | IndexName | Vertical | ScenarioId | TemplateId | TemplateVersion | Dimensions | Metric | EmbeddingModel
    | StatusKey | CreatedAt | LastVerifiedAt | DocumentCount | ClaimToken | ClaimedAt | LastErrorMessage | TemplateJson

  datatype Value = Text(text: string) | Number(number: int) | State(status: Status)

  type Entity = map<Key, Value>

  /** ISO timestamps and template JSON: how they print and how they parse. */
  datatype Formats = Formats(
    showTime: Time -> string,
    readTime: string -> Option<Time>,
    showTemplate: Template -> string,
    readTemplate: string -> Option<Template>)

  predicate KeepsTime(f: Formats, t: Time) { f.readTime(f.showTime(t)) == Some(t) }

  predicate KeepsTemplate(f: Formats, t: Template) { f.readTemplate(f.showTemplate(t)) == Some(t) }

  ghost predicate Faithful(f: Formats) {
    (forall t :: KeepsTime(f, t)) && (forall t :: KeepsTemplate(f, t))
  }

  predicate Optional(k: Key) {
    k in {LastVerifiedAt, DocumentCount, ClaimToken, ClaimedAt, LastErrorMessage, TemplateJson}
  }

  /** What the entity must hold under each key. */
  function Field(f: Formats, e: Entry, k: Key): Option<Value> {
    match k
    case IndexName => Some(Text(e.indexName))
    case Vertical => Some(Text(e.vertical))
    case ScenarioId => Some(Text(e.scenarioId))
    case TemplateId => Some(Text(e.templateId))
    case TemplateVersion => Some(Number(e.templateVersion))
    case Dimensions => Some(Number(e.dimensions))
    case Metric => Some(Text(e.metric))
    case EmbeddingModel => Some(Text(e.embeddingModel))
    case StatusKey => Some(State(e.status))
    case CreatedAt => Some(Text(f.showTime(e.createdAt)))
    case LastVerifiedAt => if e.lastVerifiedAt.Some? then Some(Text(f.showTime(e.lastVerifiedAt.value))) else None
    case DocumentCount => if e.documentCount.Some? then Some(Number(e.documentCount.value)) else None
    case ClaimToken => if e.claimToken.Some? then Some(Text(e.claimToken.value)) else None
    case ClaimedAt => if e.claimedAt.Some? then Some(Text(f.showTime(e.claimedAt.value))) else None
    case LastErrorMessage => if e.lastErrorMessage.Some? then Some(Text(e.lastErrorMessage.value)) else None
    case TemplateJson => if e.resolvedTemplate.Some? then Some(Text(f.showTemplate(e.resolvedTemplate.value))) else None
  }

  function At(data: Entity, k: Key): Option<Value> { if k in data then Some(data[k]) else None }

  ghost predicate Encodes(f: Formats, e: Entry, data: Entity) { forall k :: At(data, k) == Field(f, e, k) }

  function SetOptional(data: Entity, k: Key, v: Option<Value>): Entity {
    if v.Some? then data[k := v.value] else data
  }

  /** Every required field is in place, and the optional ones done so far. */
  ghost predicate Partly(f: Formats, e: Entry, data: Entity, done: set<Key>) {
    forall k :: At(data, k) == if Optional(k) && k !in done then None else Field(f, e, k)
  }

  lemma SetOne(f: Formats, e: Entry, data: Entity, done: set<Key>, k: Key)
    requires Partly(f, e, data, done) && Optional(k) && k !in done
    ensures Partly(f, e, SetOptional(data, k, Field(f, e, k)), done + {k})
  {
    var data' := SetOptional(data, k, Field(f, e, k));
    forall j ensures At(data', j) == if Optional(j) && j !in done + {k} then None else Field(f, e, j) {
      assert At(data, j) == if Optional(j) && j !in done then None else Field(f, e, j);
    }
  }

  method RequiredFields(f: Formats, e: Entry) returns (data: Entity)
    ensures Partly(f, e, data, {})
  {
    data := map[
      IndexName := Text(e.indexName), Vertical := Text(e.vertical), ScenarioId := Text(e.scenarioId),
      TemplateId := Text(e.templateId), TemplateVersion := Number(e.templateVersion),
      Dimensions := Number(e.dimensions), Metric := Text(e.metric), EmbeddingModel := Text(e.embeddingModel),
      StatusKey := State(e.status), CreatedAt := Text(f.showTime(e.createdAt))];
  }

  const OPTIONAL_KEYS := [LastVerifiedAt, DocumentCount, ClaimToken, ClaimedAt, LastErrorMessage, TemplateJson]

  method EntryToEntity(f: Formats, e: Entry) returns (data: Entity)
    ensures Encodes(f, e, data)
  {
    data := RequiredFields(f, e);
    ghost var done: set<Key> := {};
    for i := 0 to |OPTIONAL_KEYS|
      invariant Partly(f, e, data, done)
      invariant done == set j | 0 <= j < i :: OPTIONAL_KEYS[j]
    {
      var k := OPTIONAL_KEYS[i];
      SetOne(f, e, data, done, k);
      data := SetOptional(data, k, Field(f, e, k));
      done := done + {k};
    }
    forall k | Optional(k) ensures k in done {
      assert k in OPTIONAL_KEYS;
    }
    forall k ensures At(data, k) == Field(f, e, k) {
      assert At(data, k) == if Optional(k) && k !in done then None else Field(f, e, k);
    }
  }

  // ---- decoding ----

  /** A parsed property: absent, malformed, or a value. */
  datatype Parsed<T> = Absent | Malformed | Value(value: T)

  function TextAt(data: Entity, k: Key): Parsed<string> {
    if k !in data then Absent else if data[k].Text? then Parsed.Value(data[k].text) else Malformed
  }

  function NumberAt(data: Entity, k: Key): Parsed<int> {
    if k !in data then Absent else if data[k].Number? then Parsed.Value(data[k].number) else Malformed
  }

  function ParsedAt<T>(data: Entity, k: Key, read: string -> Option<T>): Parsed<T> {
    match TextAt(data, k)
    case Absent => Absent
    case Malformed => Malformed
    case Value(s) => if read(s).Some? then Parsed.Value(read(s).value) else Malformed
  }

  function Opt<T>(p: Parsed<T>): Option<T> { if p.Value? then Some(p.value) else None }

  function SettingsIn(f: Formats, data: Entity): Option<Settings> {
    var created := ParsedAt(data, CreatedAt, f.readTime);
    var version, dimensions := NumberAt(data, TemplateVersion), NumberAt(data, Dimensions);
    var name, vertical, scenario := TextAt(data, IndexName), TextAt(data, Vertical), TextAt(data, ScenarioId);
    var template, metric, model := TextAt(data, TemplateId), TextAt(data, Metric), TextAt(data, EmbeddingModel);
    if name.Value? && vertical.Value? && scenario.Value? && template.Value? && metric.Value? && model.Value?
       && dimensions.Value? && version.Value? && version.value >= 0 && created.Value?
    then Some(Settings(name.value, vertical.value, scenario.value, template.value, version.value,
                       dimensions.value, metric.value, model.value, created.value))
    else None
  }

  datatype Extras = Extras(
    lastVerifiedAt: Option<Time>,
    documentCount: Option<int>,
    claimToken: Option<Token>,
    claimedAt: Option<Time>,
    lastErrorMessage: Option<string>,
    resolvedTemplate: Option<Template>)

  function ExtrasIn(f: Formats, data: Entity): Option<Extras> {
    var verified, claimed := ParsedAt(data, LastVerifiedAt, f.readTime), ParsedAt(data, ClaimedAt, f.readTime);
    var template := ParsedAt(data, TemplateJson, f.readTemplate);
    var count, token, message := NumberAt(data, DocumentCount), TextAt(data, ClaimToken), TextAt(data, LastErrorMessage);
    if verified.Malformed? || claimed.Malformed? || template.Malformed? || count.Malformed?
       || token.Malformed? || message.Malformed? then None
    else Some(Extras(Opt(verified), Opt(count), Opt(token), Opt(claimed), Opt(message), Opt(template)))
  }

  /** None is the registry-unavailable error on a corrupt entity. */
  function EntityToEntry(f: Formats, data: Entity): Option<Entry> {
    var s, x := SettingsIn(f, data), ExtrasIn(f, data);
    if s.None? || x.None? || StatusKey !in data || !data[StatusKey].State? then None
    else Some(Entry(s.value.indexName, s.value.vertical, s.value.scenarioId, s.value.templateId, s.value.templateVersion,
                    s.value.dimensions, s.value.metric, s.value.embeddingModel, data[StatusKey].status, s.value.createdAt,
                    x.value.lastVerifiedAt, x.value.documentCount, x.value.claimToken, x.value.claimedAt,
                    x.value.lastErrorMessage, x.value.resolvedTemplate))
  }

  function ExtrasOf(e: Entry): Extras {
    Extras(e.lastVerifiedAt, e.documentCount, e.claimToken, e.claimedAt, e.lastErrorMessage, e.resolvedTemplate)
  }

  lemma TimeThrough(f: Formats, data: Entity, k: Key, t: Option<Time>)
    requires Faithful(f) && At(data, k) == if t.Some? then Some(Text(f.showTime(t.value))) else None
    ensures ParsedAt(data, k, f.readTime) == if t.Some? then Parsed.Value(t.value) else Absent
  {
    if t.Some? { assert KeepsTime(f, t.value); }
  }

  lemma TemplateThrough(f: Formats, data: Entity, k: Key, t: Option<Template>)
    requires Faithful(f) && At(data, k) == if t.Some? then Some(Text(f.showTemplate(t.value))) else None
    ensures ParsedAt(data, k, f.readTemplate) == if t.Some? then Parsed.Value(t.value) else Absent
  {
    if t.Some? { assert KeepsTemplate(f, t.value); }
  }

  lemma SettingsThrough(f: Formats, e: Entry, data: Entity)
    requires Faithful(f) && Encodes(f, e, data)
    ensures SettingsIn(f, data) == Some(SettingsOf(e))
  {
    assert At(data, IndexName) == Field(f, e, IndexName) && At(data, Vertical) == Field(f, e, Vertical);
    assert At(data, ScenarioId) == Field(f, e, ScenarioId) && At(data, TemplateId) == Field(f, e, TemplateId);
    assert At(data, TemplateVersion) == Field(f, e, TemplateVersion) && At(data, Dimensions) == Field(f, e, Dimensions);
    assert At(data, Metric) == Field(f, e, Metric) && At(data, EmbeddingModel) == Field(f, e, EmbeddingModel);
    assert At(data, CreatedAt) == Field(f, e, CreatedAt);
    TimeThrough(f, data, CreatedAt, Some(e.createdAt));
  }

  lemma ExtrasThrough(f: Formats, e: Entry, data: Entity)
    requires Faithful(f) && Encodes(f, e, data)
    ensures ExtrasIn(f, data) == Some(ExtrasOf(e))
  {
    assert At(data, LastVerifiedAt) == Field(f, e, LastVerifiedAt) && At(data, DocumentCount) == Field(f, e, DocumentCount);
    assert At(data, ClaimToken) == Field(f, e, ClaimToken) && At(data, ClaimedAt) == Field(f, e, ClaimedAt);
    assert At(data, LastErrorMessage) == Field(f, e, LastErrorMessage) && At(data, TemplateJson) == Field(f, e, TemplateJson);
    TimeThrough(f, data, LastVerifiedAt, e.lastVerifiedAt);
    TimeThrough(f, data, ClaimedAt, e.claimedAt);
    TemplateThrough(f, data, TemplateJson, e.resolvedTemplate);
  }

  /** What was stored is what is read back, so comparing entries compares what is stored. */
  lemma RoundTrip(f: Formats, e: Entry, data: Entity)
    requires Faithful(f) && Encodes(f, e, data)
    ensures EntityToEntry(f, data) == Some(e)
  {
    SettingsThrough(f, e, data);
    ExtrasThrough(f, e, data);
    assert At(data, StatusKey) == Field(f, e, StatusKey);
  }

  lemma EncodingIsInjective(f: Formats, e: Entry, e': Entry, data: Entity)
    requires Faithful(f) && Encodes(f, e, data) && Encodes(f, e', data)
    ensures e == e'
  {
    RoundTrip(f, e, data);
    RoundTrip(f, e', data);
  }

  /** A missing required property makes the entity unreadable; a missing optional one never does. */
  lemma MissingKeys(f: Formats, e: Entry, data: Entity, k: Key)
    requires Faithful(f) && Encodes(f, e, data)
    ensures EntityToEntry(f, data - {k}).Some? <==> Optional(k)
  {
    RoundTrip(f, e, data);
    MissingSetting(f, data, k);
    MissingExtra(f, data, k);
  }

  lemma MissingSetting(f: Formats, data: Entity, k: Key)
    requires SettingsIn(f, data).Some?
    ensures SettingsIn(f, data - {k}).Some? <==> Optional(k) || k == StatusKey
  {
  }

  lemma MissingExtra(f: Formats, data: Entity, k: Key)
    requires ExtrasIn(f, data).Some?
    ensures ExtrasIn(f, data - {k}).Some?
  {
  }

  /** Writing must replace the whole entity. Merged over an older one, the new entry reads back
      correctly if and only if the older one had no optional field that the new one lacks. */
  lemma MergeIsSafeIff(f: Formats, before: Entry, older: Entity, after: Entry, newer: Entity)
    requires Faithful(f) && Encodes(f, before, older) && Encodes(f, after, newer)
    ensures EntityToEntry(f, older + newer) == Some(after) <==>
              forall k :: Field(f, before, k).Some? ==> Field(f, after, k).Some?
  {
    var data := older + newer;
    forall k ensures At(data, k) == if Field(f, after, k).Some? then Field(f, after, k) else Field(f, before, k) {
      assert At(older, k) == Field(f, before, k) && At(newer, k) == Field(f, after, k);
    }
    if k :| Field(f, before, k).Some? && Field(f, after, k).None? {
      assert At(data, k) == Field(f, before, k);
      StaleFieldSurvives(f, before, after, data, k);
    } else {
      RoundTrip(f, after, data);
    }
  }

  lemma StaleFieldSurvives(f: Formats, before: Entry, after: Entry, data: Entity, k: Key)
    requires Faithful(f) && At(data, k) == Field(f, before, k)
    requires Field(f, before, k).Some? && Field(f, after, k).None?
    ensures EntityToEntry(f, data) != Some(after)
  {
    assert Optional(k);
  }
}
