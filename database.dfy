/**
 * Notion databases: the settings a database property carries, the rules
 * that leave an empty setting out of the serialised form, and the
 * `Database` record itself.
 */
module DatabaseSchema {
  import opened Wrappers
  import opened Json
  import opened Common

  // ---------------------------------------------------------------- settings objects

  /** The formula of a formula property; empty when it has no expression. */
  datatype FormulaExpression = FormulaExpression(expression: string)
  {
    predicate IsEmpty() { expression == "" }
  }

  /** The options of a multi-select property; empty when it has none. */
  datatype MultiSelectObject = MultiSelectObject(options: seq<SelectOption>)
  {
    predicate IsEmpty() { options == [] }
  }

  /** The display format of a number property; empty when it has none. */
  datatype NumberFormat = NumberFormat(format: string)
  {
    predicate IsEmpty() { format == "" }
  }

  /** The target of a relation property; empty when it names no database, whatever the synced fields hold. */
  datatype RelationObject = RelationObject(databaseId: string, syncedPropertyId: string, syncedPropertyName: string)
  {
    predicate IsEmpty() { databaseId == "" }
  }

  /** A rollup definition; empty when it names no rolled-up property id, whatever the other fields hold. */
  datatype RollupObject = RollupObject(
    rollupPropertyId: string, rollupPropertyName: string,
    relationPropertyId: string, relationPropertyName: string, functionName: string)
  {
    predicate IsEmpty() { rollupPropertyId == "" }
  }

  /** The options of a select property; empty when it has none. */
  datatype SelectObject = SelectObject(options: seq<SelectOption>)
  {
    predicate IsEmpty() { options == [] }
  }

  /** The options of a status property; empty when it has none. */
  datatype StatusObject = StatusObject(options: seq<SelectOption>)
  {
    predicate IsEmpty() { options == [] }
  }

  function OptionsJson(os: seq<SelectOption>): (j: Json)
    ensures j.JArr? && |j.items| == |os|
  {
    JArr(seq(|os|, i requires 0 <= i < |os| => SelectOptionJson(os[i])))
  }

  function FormulaExpressionJson(f: FormulaExpression): Json
  {
    JObj(Field("expression", JStr(f.expression)))
  }

  function MultiSelectObjectJson(m: MultiSelectObject): Json
  {
    JObj(Field("options", OptionsJson(m.options)))
  }

  function NumberFormatJson(n: NumberFormat): Json
  {
    JObj(Field("format", JStr(n.format)))
  }

  function RelationObjectJson(r: RelationObject): Json
  {
    JObj(Field("database_id", JStr(r.databaseId)) + Field("synced_property_id", JStr(r.syncedPropertyId))
      + Field("synced_property_name", JStr(r.syncedPropertyName)))
  }

  function RollupObjectJson(r: RollupObject): Json
  {
    JObj(Field("rollup_property_id", JStr(r.rollupPropertyId)) + Field("rollup_property_name", JStr(r.rollupPropertyName))
      + Field("relation_property_id", JStr(r.relationPropertyId))
      + Field("relation_property_name", JStr(r.relationPropertyName)) + Field("function", JStr(r.functionName)))
  }

  function SelectObjectJson(s: SelectObject): Json
  {
    JObj(Field("options", OptionsJson(s.options)))
  }

  function StatusObjectJson(s: StatusObject): Json
  {
    JObj(Field("options", OptionsJson(s.options)))
  }

  // ---------------------------------------------------------------- DatabaseProperty

  /**
   * The schema of one database column. `id`, `name` and `type` are always
   * serialised; each map setting is left out when it is empty, each object
   * setting when its `IsEmpty` holds.
   */
  datatype DatabaseProperty = DatabaseProperty(
    id: string,
    name: string,
    typeName: string,
    checkbox: map<string, string>,
    createdBy: map<string, string>,
    createdTime: map<string, string>,
    date: map<string, string>,
    email: map<string, string>,
    files: map<string, string>,
    formula: FormulaExpression,
    lastEditedBy: map<string, string>,
    lastEditedTime: map<string, string>,
    multiSelect: MultiSelectObject,
    number: NumberFormat,
    people: map<string, string>,
    phoneNumber: map<string, string>,
    relation: RelationObject,
    richText: map<string, string>,
    rollup: RollupObject,
    select: SelectObject,
    status: StatusObject,
    title: map<string, string>,
    url: map<string, string>)

  /** The derived default: empty strings, empty maps, empty settings. */
  const DefaultProperty: DatabaseProperty := DatabaseProperty("", "", "",
    map[], map[], map[], map[], map[], map[], FormulaExpression(""), map[], map[],
    MultiSelectObject([]), NumberFormat(""), map[], map[], RelationObject("", "", ""), map[],
    RollupObject("", "", "", "", ""), SelectObject([]), StatusObject([]), map[], map[])

  /** The twenty setting fields, one per case. */
  datatype Setting =
    | CheckboxSetting | CreatedBySetting | CreatedTimeSetting | DateSetting | EmailSetting | FilesSetting
    | FormulaSetting | LastEditedBySetting | LastEditedTimeSetting | MultiSelectSetting | NumberSetting
    | PeopleSetting | PhoneNumberSetting | RelationSetting | RichTextSetting | RollupSetting
    | SelectSetting | StatusSetting | TitleSetting | UrlSetting

  /** The settings in field-declaration order, the order serde writes them in. */
  const AllSettings: seq<Setting> := [
    CheckboxSetting, CreatedBySetting, CreatedTimeSetting, DateSetting, EmailSetting, FilesSetting,
    FormulaSetting, LastEditedBySetting, LastEditedTimeSetting, MultiSelectSetting, NumberSetting,
    PeopleSetting, PhoneNumberSetting, RelationSetting, RichTextSetting, RollupSetting,
    SelectSetting, StatusSetting, TitleSetting, UrlSetting]

  /** The JSON key of a setting. */
  function SettingName(s: Setting): string
  {
    match s
    case CheckboxSetting => "checkbox"
    case CreatedBySetting => "created_by"
    case CreatedTimeSetting => "created_time"
    case DateSetting => "date"
    case EmailSetting => "email"
    case FilesSetting => "files"
    case FormulaSetting => "formula"
    case LastEditedBySetting => "last_edited_by"
    case LastEditedTimeSetting => "last_edited_time"
    case MultiSelectSetting => "multi_select"
    case NumberSetting => "number"
    case PeopleSetting => "people"
    case PhoneNumberSetting => "phone_number"
    case RelationSetting => "relation"
    case RichTextSetting => "rich_text"
    case RollupSetting => "rollup"
    case SelectSetting => "select"
    case StatusSetting => "status"
    case TitleSetting => "title"
    case UrlSetting => "url"
  }

  /**
   * Whether a setting counts as empty: a map setting by `is_empty` on the
   * map, an object setting by its own `is_empty`.
   */
  predicate SettingIsEmpty(p: DatabaseProperty, s: Setting)
  {
    match s
    case CheckboxSetting => p.checkbox == map[]
    case CreatedBySetting => p.createdBy == map[]
    case CreatedTimeSetting => p.createdTime == map[]
    case DateSetting => p.date == map[]
    case EmailSetting => p.email == map[]
    case FilesSetting => p.files == map[]
    case FormulaSetting => p.formula.IsEmpty()
    case LastEditedBySetting => p.lastEditedBy == map[]
    case LastEditedTimeSetting => p.lastEditedTime == map[]
    case MultiSelectSetting => p.multiSelect.IsEmpty()
    case NumberSetting => p.number.IsEmpty()
    case PeopleSetting => p.people == map[]
    case PhoneNumberSetting => p.phoneNumber == map[]
    case RelationSetting => p.relation.IsEmpty()
    case RichTextSetting => p.richText == map[]
    case RollupSetting => p.rollup.IsEmpty()
    case SelectSetting => p.select.IsEmpty()
    case StatusSetting => p.status.IsEmpty()
    case TitleSetting => p.title == map[]
    case UrlSetting => p.url == map[]
  }

  /** The JSON of a setting, as serialised when it is not empty. */
  function SettingValue(p: DatabaseProperty, s: Setting): Json
  {
    match s
    case CheckboxSetting => StrDict(p.checkbox)
    case CreatedBySetting => StrDict(p.createdBy)
    case CreatedTimeSetting => StrDict(p.createdTime)
    case DateSetting => StrDict(p.date)
    case EmailSetting => StrDict(p.email)
    case FilesSetting => StrDict(p.files)
    case FormulaSetting => FormulaExpressionJson(p.formula)
    case LastEditedBySetting => StrDict(p.lastEditedBy)
    case LastEditedTimeSetting => StrDict(p.lastEditedTime)
    case MultiSelectSetting => MultiSelectObjectJson(p.multiSelect)
    case NumberSetting => NumberFormatJson(p.number)
    case PeopleSetting => StrDict(p.people)
    case PhoneNumberSetting => StrDict(p.phoneNumber)
    case RelationSetting => RelationObjectJson(p.relation)
    case RichTextSetting => StrDict(p.richText)
    case RollupSetting => RollupObjectJson(p.rollup)
    case SelectSetting => SelectObjectJson(p.select)
    case StatusSetting => StatusObjectJson(p.status)
    case TitleSetting => StrDict(p.title)
    case UrlSetting => StrDict(p.url)
  }

  /** Decoding a JSON key back to its setting; `None` for a key no setting has. */
  function SettingFromName(k: string): (r: Option<Setting>)
    ensures r.Some? ==> SettingName(r.value) == k
  {
    if k == "checkbox" then Some(CheckboxSetting)
    else if k == "created_by" then Some(CreatedBySetting)
    else if k == "created_time" then Some(CreatedTimeSetting)
    else if k == "date" then Some(DateSetting)
    else if k == "email" then Some(EmailSetting)
    else if k == "files" then Some(FilesSetting)
    else if k == "formula" then Some(FormulaSetting)
    else if k == "last_edited_by" then Some(LastEditedBySetting)
    else if k == "last_edited_time" then Some(LastEditedTimeSetting)
    else if k == "multi_select" then Some(MultiSelectSetting)
    else if k == "number" then Some(NumberSetting)
    else if k == "people" then Some(PeopleSetting)
    else if k == "phone_number" then Some(PhoneNumberSetting)
    else if k == "relation" then Some(RelationSetting)
    else if k == "rich_text" then Some(RichTextSetting)
    else if k == "rollup" then Some(RollupSetting)
    else if k == "select" then Some(SelectSetting)
    else if k == "status" then Some(StatusSetting)
    else if k == "title" then Some(TitleSetting)
    else if k == "url" then Some(UrlSetting)
    else None
  }

  /** Every setting decodes back from its key, so no two settings share a key. */
  lemma SettingNameRoundTrip(s: Setting)
    ensures SettingFromName(SettingName(s)) == Some(s)
  {
  }

  /** One setting field under `skip_serializing_if`: nothing when empty, else the one member. */
  function SettingMember(p: DatabaseProperty, s: Setting): (ms: seq<(string, Json)>)
    ensures forall x :: x in ms ==> x.0 == SettingName(s)
    ensures ms != [] <==> !SettingIsEmpty(p, s)
  {
    if SettingIsEmpty(p, s) then [] else [(SettingName(s), SettingValue(p, s))]
  }

  /** The setting fields `ss`, in that order. */
  function SettingMembers(p: DatabaseProperty, ss: seq<Setting>): (ms: seq<(string, Json)>)
  {
    if ss == [] then [] else SettingMember(p, ss[0]) + SettingMembers(p, ss[1..])
  }

  /** The serialised property: `id`, `name`, `type`, then the non-empty settings in field order. */
  function DatabasePropertyJson(p: DatabaseProperty): (j: Json)
    ensures j.JObj? && |j.members| >= 3
    ensures j.members[..3] == [("id", JStr(p.id)), ("name", JStr(p.name)), ("type", JStr(p.typeName))]
  {
    JObj(Field("id", JStr(p.id)) + Field("name", JStr(p.name)) + Field("type", JStr(p.typeName))
      + SettingMembers(p, AllSettings))
  }

  /** A setting's key is among the serialised settings exactly when it is one of `ss` and it is not empty. */
  lemma {:induction false} SettingMembersEmit(p: DatabaseProperty, ss: seq<Setting>, s: Setting)
    ensures (exists v :: (SettingName(s), v) in SettingMembers(p, ss)) <==> s in ss && !SettingIsEmpty(p, s)
  {
    if ss != [] {
      var k := SettingName(s);
      var head := SettingMember(p, ss[0]);
      var tail := SettingMembers(p, ss[1..]);
      SettingMembersEmit(p, ss[1..], s);
      assert SettingMembers(p, ss) == head + tail;
      if s in ss && !SettingIsEmpty(p, s) {
        if s == ss[0] {
          assert (k, SettingValue(p, s)) in head;
        } else {
          assert s in ss[1..];
        }
      }
      if exists v :: (k, v) in SettingMembers(p, ss) {
        var v :| (k, v) in head + tail;
        if (k, v) in head {
          SettingNameRoundTrip(s);
          SettingNameRoundTrip(ss[0]);
        }
      }
    }
  }

  /** Settings that agree one by one serialise to the same members. */
  lemma {:induction false} SettingMembersAgree(p: DatabaseProperty, q: DatabaseProperty, ss: seq<Setting>)
    requires forall s :: s in ss ==> SettingMember(p, s) == SettingMember(q, s)
    ensures SettingMembers(p, ss) == SettingMembers(q, ss)
  {
    if ss != [] {
      SettingMembersAgree(p, q, ss[1..]);
    }
  }

  /** A property whose settings `ss` are all empty serialises none of them. */
  lemma {:induction false} EmptySettingsOmitted(p: DatabaseProperty, ss: seq<Setting>)
    requires forall s :: s in ss ==> SettingIsEmpty(p, s)
    ensures SettingMembers(p, ss) == []
  {
    if ss != [] {
      EmptySettingsOmitted(p, ss[1..]);
    }
  }

  /** `id`, `name` and `type` are always serialised. */
  lemma NamesAlwaysEmitted(p: DatabaseProperty)
    ensures Emits(DatabasePropertyJson(p), "id") && Emits(DatabasePropertyJson(p), "name")
    ensures Emits(DatabasePropertyJson(p), "type")
  {
    var ms := DatabasePropertyJson(p).members;
    assert ms[0] in ms && ms[1] in ms && ms[2] in ms;
  }

  /** No setting shares its key with `id`, `name` or `type`. */
  lemma SettingNameNotAName(s: Setting)
    ensures SettingName(s) != "id" && SettingName(s) != "name" && SettingName(s) != "type"
  {
  }

  /** Past the three names, a key is serialised exactly when a setting member carries it. */
  lemma EmitsIffSettingMember(p: DatabaseProperty, k: string)
    requires k != "id" && k != "name" && k != "type"
    ensures Emits(DatabasePropertyJson(p), k) <==> exists v :: (k, v) in SettingMembers(p, AllSettings)
  {
    var head := [("id", JStr(p.id)), ("name", JStr(p.name)), ("type", JStr(p.typeName))];
    var rest := SettingMembers(p, AllSettings);
    assert DatabasePropertyJson(p).members == head + rest;
    assert forall v :: (k, v) in head + rest <==> (k, v) in rest;
  }

  /** A setting is serialised exactly when its emptiness test fails. */
  lemma SettingEmittedIffNotEmpty(p: DatabaseProperty, s: Setting)
    ensures Emits(DatabasePropertyJson(p), SettingName(s)) <==> !SettingIsEmpty(p, s)
  {
    SettingNameNotAName(s);
    EmitsIffSettingMember(p, SettingName(s));
    assert s in AllSettings;
    SettingMembersEmit(p, AllSettings, s);
  }

  /** A property whose settings are all empty serialises to its three names alone. */
  lemma AllEmptySettingsOmitted(p: DatabaseProperty)
    requires forall s :: SettingIsEmpty(p, s)
    ensures DatabasePropertyJson(p) == JObj([("id", JStr(p.id)), ("name", JStr(p.name)), ("type", JStr(p.typeName))])
  {
    EmptySettingsOmitted(p, AllSettings);
  }

  /** Every setting of the default property is empty. */
  lemma DefaultSettingEmpty(s: Setting)
    ensures SettingIsEmpty(DefaultProperty, s)
  {
  }

  /** The default property serialises to empty `id`, `name` and `type` and nothing else. */
  lemma DefaultPropertyJson()
    ensures DatabasePropertyJson(DefaultProperty)
         == JObj([("id", JStr("")), ("name", JStr("")), ("type", JStr(""))])
  {
    forall s ensures SettingIsEmpty(DefaultProperty, s) {
      DefaultSettingEmpty(s);
    }
    AllEmptySettingsOmitted(DefaultProperty);
  }

  /** Clearing a relation without `database_id` leaves every setting member as it was. */
  lemma RelationClearedMembers(p: DatabaseProperty, s: Setting)
    requires p.relation.databaseId == ""
    ensures SettingMember(p, s) == SettingMember(p.(relation := RelationObject("", "", "")), s)
  {
  }

  /** A relation whose `database_id` is empty is not serialised, whatever its synced fields hold. */
  lemma RelationDroppedWithoutDatabaseId(p: DatabaseProperty)
    requires p.relation.databaseId == ""
    ensures !Emits(DatabasePropertyJson(p), "relation")
  {
    SettingEmittedIffNotEmpty(p, RelationSetting);
  }

  /** Emptiness of a relation depends on `database_id` alone: its synced fields never reach the output. */
  lemma RelationSyncedFieldsIgnored(p: DatabaseProperty)
    requires p.relation.databaseId == ""
    ensures DatabasePropertyJson(p) == DatabasePropertyJson(p.(relation := RelationObject("", "", "")))
  {
    var q := p.(relation := RelationObject("", "", ""));
    forall s | s in AllSettings ensures SettingMember(p, s) == SettingMember(q, s) {
      RelationClearedMembers(p, s);
    }
    SettingMembersAgree(p, q, AllSettings);
  }

  /** Clearing a rollup without `rollup_property_id` leaves every setting member as it was. */
  lemma RollupClearedMembers(p: DatabaseProperty, s: Setting)
    requires p.rollup.rollupPropertyId == ""
    ensures SettingMember(p, s) == SettingMember(p.(rollup := RollupObject("", "", "", "", "")), s)
  {
  }

  /** A rollup whose `rollup_property_id` is empty is not serialised, whatever its other fields hold. */
  lemma RollupDroppedWithoutPropertyId(p: DatabaseProperty)
    requires p.rollup.rollupPropertyId == ""
    ensures !Emits(DatabasePropertyJson(p), "rollup")
  {
    SettingEmittedIffNotEmpty(p, RollupSetting);
  }

  /** Emptiness of a rollup depends on `rollup_property_id` alone: its other fields never reach the output. */
  lemma RollupOtherFieldsIgnored(p: DatabaseProperty)
    requires p.rollup.rollupPropertyId == ""
    ensures DatabasePropertyJson(p) == DatabasePropertyJson(p.(rollup := RollupObject("", "", "", "", "")))
  {
    var q := p.(rollup := RollupObject("", "", "", "", ""));
    forall s | s in AllSettings ensures SettingMember(p, s) == SettingMember(q, s) {
      RollupClearedMembers(p, s);
    }
    SettingMembersAgree(p, q, AllSettings);
  }

  // ---------------------------------------------------------------- Database

  /**
   * A database. `status`, `code`, `message` and `request_id` are decoded
   * from a response but never serialised.
   */
  datatype Database = Database(
    objectName: string,
    status: uint32,
    code: string,
    message: string,
    requestId: string,
    id: string,
    createdTime: string,
    lastEditedTime: string,
    createdBy: User,
    lastEditedBy: User,
    url: string,
    archived: bool,
    isInline: bool,
    publicUrl: Option<string>,
    title: seq<RichText>,
    description: seq<RichText>,
    properties: map<string, DatabaseProperty>)

  /** The keys a database serialises, in field order. */
  const DatabaseKeys: seq<string> := ["object", "id", "created_time", "last_edited_time", "created_by",
    "last_edited_by", "url", "archived", "is_inline", "public_url", "title", "description", "properties"]

  /** Every field except the four response fields, in field order; `public_url` is `null` when absent. */
  function DatabaseJson(d: Database): (j: Json)
    ensures j.JObj? && Keys(j.members) == DatabaseKeys
  {
    JObj([("object", JStr(d.objectName)), ("id", JStr(d.id)),
      ("created_time", JStr(d.createdTime)), ("last_edited_time", JStr(d.lastEditedTime)),
      ("created_by", UserJson(d.createdBy)), ("last_edited_by", UserJson(d.lastEditedBy)),
      ("url", JStr(d.url)), ("archived", JBool(d.archived)), ("is_inline", JBool(d.isInline)),
      ("public_url", Nullable(d.publicUrl)),
      ("title", RichTextListJson(d.title)), ("description", RichTextListJson(d.description)),
      ("properties", SchemaJson(d.properties))])
  }

  /** The property schemas, keyed by name; their order on the wire is unspecified. */
  function SchemaJson(ps: map<string, DatabaseProperty>): Json
  {
    JDict(map k | k in ps :: DatabasePropertyJson(ps[k]))
  }

  /** Only the keys in `DatabaseKeys` are serialised. */
  lemma DatabaseEmitsOnlyItsKeys(d: Database, k: string)
    requires k !in DatabaseKeys
    ensures !Emits(DatabaseJson(d), k)
  {
  }

  /** Databases that differ only in the response fields serialise identically. */
  lemma DatabaseIgnoresResponseFields(d: Database, status: uint32, code: string, message: string, requestId: string)
    ensures DatabaseJson(d.(status := status, code := code, message := message, requestId := requestId))
         == DatabaseJson(d)
  {
  }

  /** `status`, `code`, `message` and `request_id` are never serialised. */
  lemma ResponseFieldsNotSerialised(d: Database)
    ensures !Emits(DatabaseJson(d), "status") && !Emits(DatabaseJson(d), "code")
    ensures !Emits(DatabaseJson(d), "message") && !Emits(DatabaseJson(d), "request_id")
  {
    DatabaseEmitsOnlyItsKeys(d, "status");
    DatabaseEmitsOnlyItsKeys(d, "code");
    DatabaseEmitsOnlyItsKeys(d, "message");
    DatabaseEmitsOnlyItsKeys(d, "request_id");
  }
}
