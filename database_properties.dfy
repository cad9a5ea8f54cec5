/**
 * The database property values of `database_properties.rs`: the same shape
 * as a page property, with select options whose colour is a free string and
 * files without a caption, plus the constructors that fill one value field.
 */
module DatabaseProperties {
  import opened Wrappers
  import opened Json
  import C = Common
  import DatabaseSchema

  type Date = C.Date
  type Email = C.Email
  type Formula = C.Formula
  type PhoneNumber = C.PhoneNumber
  type Relation = C.Relation
  type RichText = C.RichText
  type UniqueId = C.UniqueId
  type User = C.User

  /**
   * The settings record of this file, field for field the database property
   * schema of `database.rs`.
   */
  type DatabasePropertySetting = DatabaseSchema.DatabaseProperty

  /** A select option; `id` and `color` are decoded but never serialised. */
  datatype SelectOption = SelectOption(id: string, name: string, color: string)

  function SelectOptionJson(o: SelectOption): Json
  {
    JObj(Field("name", JStr(o.name)))
  }

  /** Two options that differ only in id or colour serialise identically. */
  lemma SelectOptionIgnoresIdAndColor(a: SelectOption, b: SelectOption)
    requires a.name == b.name
    ensures SelectOptionJson(a) == SelectOptionJson(b)
    ensures !Emits(SelectOptionJson(a), "id") && !Emits(SelectOptionJson(a), "color")
  {
  }

  /** A file reference; unlike the common one it has no caption. */
  datatype File = File(name: string, typeName: string, external: C.ExternalUrl)

  function FileJson(f: File): Json
  {
    JObj(Field("name", JStr(f.name)) + Field("type", JStr(f.typeName)) + Field("external", C.ExternalUrlJson(f.external)))
  }

  /**
   * A rollup value. Every field is serialised; an absent one becomes `null`.
   * `array` is spelled out so that termination can see the nesting.
   */
  datatype Rollup = Rollup(
    typeName: string,
    arrayValue: PropertyArray,
    date: Option<Date>,
    incomplete: Option<bool>,
    number: Option<F64>,
    unsupported: Option<string>,
    functionName: Option<string>)

  /** `Option<Vec<DatabaseProperty>>`. */
  datatype PropertyArray = NoArray | PropertyArray(items: seq<DatabaseProperty>)

  function RollupJson(r: Rollup): Json
    decreases r, 1
  {
    JObj(Field("type", JStr(r.typeName))
      + Field("array", PropertyArrayJson(r.arrayValue))
      + Field("date", if r.date.Some? then C.DateJson(r.date.value) else JNull)
      + Field("incomplete", if r.incomplete.Some? then JBool(r.incomplete.value) else JNull)
      + Field("number", if r.number.Some? then JFloat(r.number.value) else JNull)
      + Field("unsupported", Nullable(r.unsupported))
      + Field("function", Nullable(r.functionName)))
  }

  function PropertyArrayJson(a: PropertyArray): Json
    decreases a, 0
  {
    match a
    case NoArray => JNull
    case PropertyArray(items) => JArr(seq(|items|, i requires 0 <= i < |items| => DatabasePropertyJson(items[i])))
  }

  /** Keys of the metadata fields, none of which is serialised. */
  predicate MetaKey(k: string)
  {
    k in {"id", "name", "type", "created_by", "created_time", "last_edited_by", "last_edited_time"}
  }

  /** A present value under its key; `key` names no metadata field. */
  function ValueOpt(key: string, v: Option<Json>): (ms: seq<(string, Json)>)
    requires !MetaKey(key)
    ensures forall m :: m in ms ==> !MetaKey(m.0)
    ensures |ms| == if v.Some? then 1 else 0
  {
    Opt(key, v)
  }

  /** The metadata is empty and exactly one value field is present: what every constructor yields. */
  predicate Single(p: DatabaseProperty)
  {
    && p.id == "" && p.name == "" && p.typeName == ""
    && p.createdBy.None? && p.createdTime.None? && p.lastEditedBy.None? && p.lastEditedTime.None?
    && ValueCount(p) == 1
  }

  /**
   * One property value of a database row. The metadata (`id`, `name`, `type`,
   * creator and editor, times) is decoded but never serialised; the
   * seventeen value fields are serialised only when present.
   */
  datatype DatabaseProperty = DatabaseProperty(
    id: string,
    name: string,
    typeName: string,
    createdBy: Option<User>,
    createdTime: Option<string>,
    lastEditedBy: Option<User>,
    lastEditedTime: Option<string>,
    checkbox: Option<bool>,
    date: Option<Date>,
    email: Option<Email>,
    files: Option<seq<File>>,
    formula: Option<Formula>,
    multiSelect: Option<seq<SelectOption>>,
    number: Option<F64>,
    people: Option<seq<User>>,
    phoneNumber: Option<PhoneNumber>,
    relation: Option<seq<Relation>>,
    richText: Option<seq<RichText>>,
    rollup: Option<Rollup>,
    select: Option<SelectOption>,
    status: Option<SelectOption>,
    title: Option<seq<RichText>>,
    url: Option<string>,
    uniqueId: Option<UniqueId>)
  {
    /** The derived default: empty metadata, every value `None`. */
    static const Default: DatabaseProperty := DatabaseProperty("", "", "", None, None, None, None, None, None, None, None, None, None, None, None, None, None, None, None, None, None, None, None, None)

    /** `DatabaseProperty::checkbox`. */
    static method Checkbox(value: bool) returns (prop: DatabaseProperty)
      ensures Single(prop) && prop.checkbox == Some(value)
    {
      prop := Default;
      prop := prop.(checkbox := Some(value));
    }

    /** `DatabaseProperty::date`: a date whose `start` is the value. */
    static method Date(value: string) returns (prop: DatabaseProperty)
      ensures Single(prop) && prop.date == Some(C.Date(value))
    {
      prop := Default;
      prop := prop.(date := Some(C.Date(value)));
    }

    /** `DatabaseProperty::email`. */
    static method Email(value: string) returns (prop: DatabaseProperty)
      ensures Single(prop) && prop.email == Some(C.Email(value))
    {
      prop := Default;
      prop := prop.(email := Some(C.Email(value)));
    }

    /** `DatabaseProperty::multi_select`: one option per name, in order, with empty id and colour. */
    static method MultiSelect(value: seq<string>) returns (prop: DatabaseProperty)
      ensures Single(prop) && prop.multiSelect.Some?
      ensures |prop.multiSelect.value| == |value|
      ensures forall i :: 0 <= i < |value| ==>
        prop.multiSelect.value[i] == SelectOption("", value[i], "")
    {
      prop := Default;
      var options: seq<SelectOption> := [];
      for i := 0 to |value|
        invariant |options| == i
        invariant forall k :: 0 <= k < i ==> options[k] == SelectOption("", value[k], "")
      {
        options := options + [SelectOption("", value[i], "")];
      }
      prop := prop.(multiSelect := Some(options));
    }

    /** `DatabaseProperty::number`. */
    static method Number(value: F64) returns (prop: DatabaseProperty)
      ensures Single(prop) && prop.number == Some(value)
    {
      prop := Default;
      prop := prop.(number := Some(value));
    }

    /** `DatabaseProperty::phone_number`. */
    static method PhoneNumber(value: string) returns (prop: DatabaseProperty)
      ensures Single(prop) && prop.phoneNumber == Some(C.PhoneNumber(value))
    {
      prop := Default;
      prop := prop.(phoneNumber := Some(C.PhoneNumber(value)));
    }

    /** `DatabaseProperty::relation`: one relation per id, in order. */
    static method Relation(value: seq<string>) returns (prop: DatabaseProperty)
      ensures Single(prop) && prop.relation.Some?
      ensures |prop.relation.value| == |value|
      ensures forall i :: 0 <= i < |value| ==> prop.relation.value[i].id == value[i]
    {
      prop := Default;
      var relations: seq<C.Relation> := [];
      for i := 0 to |value|
        invariant |relations| == i
        invariant forall k :: 0 <= k < i ==> relations[k].id == value[k]
      {
        relations := relations + [C.Relation(value[i])];
      }
      prop := prop.(relation := Some(relations));
    }

    /** `DatabaseProperty::rich_text`: the list as given. */
    static method RichText(value: seq<C.RichText>) returns (prop: DatabaseProperty)
      ensures Single(prop) && prop.richText == Some(value)
    {
      prop := Default;
      prop := prop.(richText := Some(value));
    }

    /** `DatabaseProperty::select`: an option with the name and empty id and colour. */
    static method Select(value: string) returns (prop: DatabaseProperty)
      ensures Single(prop) && prop.select == Some(SelectOption("", value, ""))
    {
      prop := Default;
      prop := prop.(select := Some(SelectOption("", value, "")));
    }

    /** `DatabaseProperty::status`: an option with the name and empty id and colour. */
    static method Status(value: string) returns (prop: DatabaseProperty)
      ensures Single(prop) && prop.status == Some(SelectOption("", value, ""))
    {
      prop := Default;
      prop := prop.(status := Some(SelectOption("", value, "")));
    }

    /** `DatabaseProperty::title`: a one-element list. */
    static method Title(value: C.RichText) returns (prop: DatabaseProperty)
      ensures Single(prop) && prop.title == Some([value])
    {
      prop := Default;
      prop := prop.(title := Some([value]));
    }

    /** `DatabaseProperty::url`. */
    static method Url(value: string) returns (prop: DatabaseProperty)
      ensures Single(prop) && prop.url == Some(value)
    {
      prop := Default;
      prop := prop.(url := Some(value));
    }
  }

  /** How many of the seventeen value fields are present. */
  function ValueCount(p: DatabaseProperty): nat
  {
    ValueCountA(p) + ValueCountB(p) + ValueCountC(p) + ValueCountD(p) + ValueCountE(p)
  }

  function ValueCountA(p: DatabaseProperty): nat
  {
    (if p.checkbox.Some? then 1 else 0)
    + (if p.date.Some? then 1 else 0)
    + (if p.email.Some? then 1 else 0)
    + (if p.files.Some? then 1 else 0)
  }

  function ValueCountB(p: DatabaseProperty): nat
  {
    (if p.formula.Some? then 1 else 0)
    + (if p.multiSelect.Some? then 1 else 0)
    + (if p.number.Some? then 1 else 0)
    + (if p.people.Some? then 1 else 0)
  }

  function ValueCountC(p: DatabaseProperty): nat
  {
    (if p.phoneNumber.Some? then 1 else 0)
    + (if p.relation.Some? then 1 else 0)
    + (if p.richText.Some? then 1 else 0)
    + (if p.rollup.Some? then 1 else 0)
  }

  function ValueCountD(p: DatabaseProperty): nat
  {
    (if p.select.Some? then 1 else 0)
    + (if p.status.Some? then 1 else 0)
    + (if p.title.Some? then 1 else 0)
  }

  function ValueCountE(p: DatabaseProperty): nat
  {
    (if p.url.Some? then 1 else 0)
    + (if p.uniqueId.Some? then 1 else 0)
  }

  /** The serialised property: only its present value fields, in field order. */
  function DatabasePropertyJson(p: DatabaseProperty): Json
    decreases p, 2
  {
    JObj(ValueMembers(p))
  }

  function ValueMembers(p: DatabaseProperty): (ms: seq<(string, Json)>)
    ensures forall m :: m in ms ==> !MetaKey(m.0)
    ensures |ms| == ValueCount(p)
    decreases p, 1
  {
    ValueMembersA(p) + ValueMembersB(p) + ValueMembersC(p) + ValueMembersD(p) + ValueMembersE(p)
  }

  function ValueMembersA(p: DatabaseProperty): (ms: seq<(string, Json)>)
    ensures forall m :: m in ms ==> !MetaKey(m.0)
    ensures |ms| == ValueCountA(p)
    decreases p, 0
  {
      ValueOpt("checkbox", if p.checkbox.Some? then Some(JBool(p.checkbox.value)) else None)
    + ValueOpt("date", if p.date.Some? then Some(C.DateJson(p.date.value)) else None)
    + ValueOpt("email", if p.email.Some? then Some(C.EmailJson(p.email.value)) else None)
    + ValueOpt("files", if p.files.Some? then Some(JArr(seq(|p.files.value|, i requires 0 <= i < |p.files.value| => FileJson(p.files.value[i])))) else None)
  }

  function ValueMembersB(p: DatabaseProperty): (ms: seq<(string, Json)>)
    ensures forall m :: m in ms ==> !MetaKey(m.0)
    ensures |ms| == ValueCountB(p)
    decreases p, 0
  {
      ValueOpt("formula", if p.formula.Some? then Some(C.FormulaJson(p.formula.value)) else None)
    + ValueOpt("multi_select", if p.multiSelect.Some? then Some(JArr(seq(|p.multiSelect.value|, i requires 0 <= i < |p.multiSelect.value| => SelectOptionJson(p.multiSelect.value[i])))) else None)
    + ValueOpt("number", if p.number.Some? then Some(JFloat(p.number.value)) else None)
    + ValueOpt("people", if p.people.Some? then Some(JArr(seq(|p.people.value|, i requires 0 <= i < |p.people.value| => C.UserJson(p.people.value[i])))) else None)
  }

  function ValueMembersC(p: DatabaseProperty): (ms: seq<(string, Json)>)
    ensures forall m :: m in ms ==> !MetaKey(m.0)
    ensures |ms| == ValueCountC(p)
    decreases p, 0
  {
      ValueOpt("phone_number", if p.phoneNumber.Some? then Some(C.PhoneNumberJson(p.phoneNumber.value)) else None)
    + ValueOpt("relation", if p.relation.Some? then Some(JArr(seq(|p.relation.value|, i requires 0 <= i < |p.relation.value| => C.RelationJson(p.relation.value[i])))) else None)
    + ValueOpt("rich_text", if p.richText.Some? then Some(C.RichTextListJson(p.richText.value)) else None)
    + ValueOpt("rollup", if p.rollup.Some? then Some(RollupJson(p.rollup.value)) else None)
  }

  function ValueMembersD(p: DatabaseProperty): (ms: seq<(string, Json)>)
    ensures forall m :: m in ms ==> !MetaKey(m.0)
    ensures |ms| == ValueCountD(p)
    decreases p, 0
  {
      ValueOpt("select", if p.select.Some? then Some(SelectOptionJson(p.select.value)) else None)
    + ValueOpt("status", if p.status.Some? then Some(SelectOptionJson(p.status.value)) else None)
    + ValueOpt("title", if p.title.Some? then Some(C.RichTextListJson(p.title.value)) else None)
  }

  function ValueMembersE(p: DatabaseProperty): (ms: seq<(string, Json)>)
    ensures forall m :: m in ms ==> !MetaKey(m.0)
    ensures |ms| == ValueCountE(p)
    decreases p, 0
  {
      ValueOpt("url", if p.url.Some? then Some(JStr(p.url.value)) else None)
    + ValueOpt("unique_id", if p.uniqueId.Some? then Some(C.UniqueIdJson(p.uniqueId.value)) else None)
  }

  /** No metadata key is ever serialised. */
  lemma MetadataNeverSerialised(p: DatabaseProperty, k: string)
    requires MetaKey(k)
    ensures !Emits(DatabasePropertyJson(p), k)
  {
    assert forall m: (string, Json) :: m in ValueMembers(p) ==> m.0 != k;
  }

  /** One member per present value: `None` values are omitted, so a constructed property has one member. */
  lemma PropertyJsonSize(p: DatabaseProperty)
    ensures |DatabasePropertyJson(p).members| == ValueCount(p)
    ensures Single(p) ==> |DatabasePropertyJson(p).members| == 1
  {
  }

  /** The default property serialises to `{}`. */
  lemma DefaultPropertyIsEmpty()
    ensures DatabasePropertyJson(DatabaseProperty.Default) == JObj([])
  {
    PropertyJsonSize(DatabaseProperty.Default);
  }

}
