/**
 * Notion pages: the property values a page carries, their constructors,
 * the `Page` record with its default, and the serialised forms.
 */
module Pages {
  import opened Wrappers
  import opened Json
  import opened Common

  /**
   * A rollup value. Every field is serialised; an absent one becomes `null`.
   * `array` is spelled out so that termination can see the nesting.
   */
  datatype Rollup = Rollup(
    typeName: string,
    arrayValue: PropertyArray,
    date: Option<Date>,
    incomplete: Option<bool>,
    number: Option<F64>,
    unsupported: Option<string>,
    functionName: Option<string>)

  /** `Option<Vec<PageProperty>>`. */
  datatype PropertyArray = NoArray | PropertyArray(items: seq<PageProperty>)

  function RollupJson(r: Rollup): Json
    decreases r, 1
  {
    JObj(Field("type", JStr(r.typeName))
      + Field("array", PropertyArrayJson(r.arrayValue))
      + Field("date", if r.date.Some? then DateJson(r.date.value) else JNull)
      + Field("incomplete", if r.incomplete.Some? then JBool(r.incomplete.value) else JNull)
      + Field("number", if r.number.Some? then JFloat(r.number.value) else JNull)
      + Field("unsupported", Nullable(r.unsupported))
      + Field("function", Nullable(r.functionName)))
  }

  function PropertyArrayJson(a: PropertyArray): Json
    decreases a, 0
  {
    match a
    case NoArray => JNull
    case PropertyArray(items) => JArr(seq(|items|, i requires 0 <= i < |items| => PagePropertyJson(items[i])))
  }

  /** Keys of the metadata fields, none of which is serialised. */
  predicate MetaKey(k: string)
  {
    k in {"id", "name", "type", "created_by", "created_time", "last_edited_by", "last_edited_time"}
  }

  /** A present value under its key; `key` names no metadata field. */
  function ValueOpt(key: string, v: Option<Json>): (ms: seq<(string, Json)>)
    requires !MetaKey(key)
    ensures forall m :: m in ms ==> !MetaKey(m.0)
    ensures |ms| == if v.Some? then 1 else 0
  {
    Opt(key, v)
  }

  /** The metadata is empty and exactly one value field is present: what every constructor yields. */
  predicate Single(p: PageProperty)
  {
    && p.id == "" && p.name == "" && p.typeName == ""
    && p.createdBy.None? && p.createdTime.None? && p.lastEditedBy.None? && p.lastEditedTime.None?
    && ValueCount(p) == 1
  }

  /**
   * One property value of a page. The metadata (`id`, `name`, `type`,
   * creator and editor, times) is decoded but never serialised; the
   * seventeen value fields are serialised only when present.
   */
  datatype PageProperty = PageProperty(
    id: string,
    name: string,
    typeName: string,
    createdBy: Option<User>,
    createdTime: Option<string>,
    lastEditedBy: Option<User>,
    lastEditedTime: Option<string>,
    checkbox: Option<bool>,
    date: Option<Date>,
    email: Option<Email>,
    files: Option<seq<File>>,
    formula: Option<Formula>,
    multiSelect: Option<seq<SelectOption>>,
    number: Option<F64>,
    people: Option<seq<User>>,
    phoneNumber: Option<PhoneNumber>,
    relation: Option<seq<Relation>>,
    richText: Option<seq<RichText>>,
    rollup: Option<Rollup>,
    select: Option<SelectOption>,
    status: Option<SelectOption>,
    title: Option<seq<RichText>>,
    url: Option<string>,
    uniqueId: Option<UniqueId>)
  {
    /** The derived default: empty metadata, every value `None`. */
    static const Default: PageProperty := PageProperty("", "", "", None, None, None, None, None, None, None, None, None, None, None, None, None, None, None, None, None, None, None, None, None)

    /** `PageProperty::checkbox`. */
    static method Checkbox(value: bool) returns (prop: PageProperty)
      ensures Single(prop) && prop.checkbox == Some(value)
    {
      prop := Default;
      prop := prop.(checkbox := Some(value));
    }

    /** `PageProperty::date`: a date whose `start` is the value. */
    static method Date(value: string) returns (prop: PageProperty)
      ensures Single(prop) && prop.date == Some(Common.Date(value))
    {
      prop := Default;
      prop := prop.(date := Some(Common.Date(value)));
    }

    /** `PageProperty::email`. */
    static method Email(value: string) returns (prop: PageProperty)
      ensures Single(prop) && prop.email == Some(Common.Email(value))
    {
      prop := Default;
      prop := prop.(email := Some(Common.Email(value)));
    }

    /** `PageProperty::multi_select`: one option per name, in order, with no id and the default colour. */
    static method MultiSelect(value: seq<string>) returns (prop: PageProperty)
      ensures Single(prop) && prop.multiSelect.Some?
      ensures |prop.multiSelect.value| == |value|
      ensures forall i :: 0 <= i < |value| ==>
        prop.multiSelect.value[i] == SelectOption("", value[i], Color.Default)
    {
      prop := Default;
      var options: seq<SelectOption> := [];
      for i := 0 to |value|
        invariant |options| == i
        invariant forall k :: 0 <= k < i ==> options[k] == SelectOption("", value[k], Color.Default)
      {
        options := options + [SelectOption("", value[i], Color.Default)];
      }
      prop := prop.(multiSelect := Some(options));
    }

    /** `PageProperty::number`. */
    static method Number(value: F64) returns (prop: PageProperty)
      ensures Single(prop) && prop.number == Some(value)
    {
      prop := Default;
      prop := prop.(number := Some(value));
    }

    /** `PageProperty::phone_number`. */
    static method PhoneNumber(value: string) returns (prop: PageProperty)
      ensures Single(prop) && prop.phoneNumber == Some(Common.PhoneNumber(value))
    {
      prop := Default;
      prop := prop.(phoneNumber := Some(Common.PhoneNumber(value)));
    }

    /** `PageProperty::relation`: one relation per id, in order. */
    static method Relation(value: seq<string>) returns (prop: PageProperty)
      ensures Single(prop) && prop.relation.Some?
      ensures |prop.relation.value| == |value|
      ensures forall i :: 0 <= i < |value| ==> prop.relation.value[i].id == value[i]
    {
      prop := Default;
      var relations: seq<Common.Relation> := [];
      for i := 0 to |value|
        invariant |relations| == i
        invariant forall k :: 0 <= k < i ==> relations[k].id == value[k]
      {
        relations := relations + [Common.Relation(value[i])];
      }
      prop := prop.(relation := Some(relations));
    }

    /** `PageProperty::rich_text`: the list as given. */
    static method RichText(value: seq<Common.RichText>) returns (prop: PageProperty)
      ensures Single(prop) && prop.richText == Some(value)
    {
      prop := Default;
      prop := prop.(richText := Some(value));
    }

    /** `PageProperty::select`: an option with the name, no id, the default colour. */
    static method Select(value: string) returns (prop: PageProperty)
      ensures Single(prop) && prop.select == Some(SelectOption("", value, Color.Default))
    {
      prop := Default;
      prop := prop.(select := Some(SelectOption("", value, Color.Default)));
    }

    /** `PageProperty::status`: an option with the name, no id, the default colour. */
    static method Status(value: string) returns (prop: PageProperty)
      ensures Single(prop) && prop.status == Some(SelectOption("", value, Color.Default))
    {
      prop := Default;
      prop := prop.(status := Some(SelectOption("", value, Color.Default)));
    }

    /** `PageProperty::title`: a one-element list. */
    static method Title(value: Common.RichText) returns (prop: PageProperty)
      ensures Single(prop) && prop.title == Some([value])
    {
      prop := Default;
      prop := prop.(title := Some([value]));
    }

    /** `PageProperty::url`. */
    static method Url(value: string) returns (prop: PageProperty)
      ensures Single(prop) && prop.url == Some(value)
    {
      prop := Default;
      prop := prop.(url := Some(value));
    }
  }

  /** How many of the seventeen value fields are present. */
  function ValueCount(p: PageProperty): nat
  {
    ValueCountA(p) + ValueCountB(p) + ValueCountC(p) + ValueCountD(p) + ValueCountE(p)
  }

  function ValueCountA(p: PageProperty): nat
  {
    (if p.checkbox.Some? then 1 else 0)
    + (if p.date.Some? then 1 else 0)
    + (if p.email.Some? then 1 else 0)
    + (if p.files.Some? then 1 else 0)
  }

  function ValueCountB(p: PageProperty): nat
  {
    (if p.formula.Some? then 1 else 0)
    + (if p.multiSelect.Some? then 1 else 0)
    + (if p.number.Some? then 1 else 0)
    + (if p.people.Some? then 1 else 0)
  }

  function ValueCountC(p: PageProperty): nat
  {
    (if p.phoneNumber.Some? then 1 else 0)
    + (if p.relation.Some? then 1 else 0)
    + (if p.richText.Some? then 1 else 0)
    + (if p.rollup.Some? then 1 else 0)
  }

  function ValueCountD(p: PageProperty): nat
  {
    (if p.select.Some? then 1 else 0)
    + (if p.status.Some? then 1 else 0)
    + (if p.title.Some? then 1 else 0)
  }

  function ValueCountE(p: PageProperty): nat
  {
    (if p.url.Some? then 1 else 0)
    + (if p.uniqueId.Some? then 1 else 0)
  }

  /** The serialised property: only its present value fields, in field order. */
  function PagePropertyJson(p: PageProperty): Json
    decreases p, 2
  {
    JObj(ValueMembers(p))
  }

  function ValueMembers(p: PageProperty): (ms: seq<(string, Json)>)
    ensures forall m :: m in ms ==> !MetaKey(m.0)
    ensures |ms| == ValueCount(p)
    decreases p, 1
  {
    ValueMembersA(p) + ValueMembersB(p) + ValueMembersC(p) + ValueMembersD(p) + ValueMembersE(p)
  }

  function ValueMembersA(p: PageProperty): (ms: seq<(string, Json)>)
    ensures forall m :: m in ms ==> !MetaKey(m.0)
    ensures |ms| == ValueCountA(p)
    decreases p, 0
  {
      ValueOpt("checkbox", if p.checkbox.Some? then Some(JBool(p.checkbox.value)) else None)
    + ValueOpt("date", if p.date.Some? then Some(DateJson(p.date.value)) else None)
    + ValueOpt("email", if p.email.Some? then Some(EmailJson(p.email.value)) else None)
    + ValueOpt("files", if p.files.Some? then Some(JArr(seq(|p.files.value|, i requires 0 <= i < |p.files.value| => FileJson(p.files.value[i])))) else None)
  }

  function ValueMembersB(p: PageProperty): (ms: seq<(string, Json)>)
    ensures forall m :: m in ms ==> !MetaKey(m.0)
    ensures |ms| == ValueCountB(p)
    decreases p, 0
  {
      ValueOpt("formula", if p.formula.Some? then Some(FormulaJson(p.formula.value)) else None)
    + ValueOpt("multi_select", if p.multiSelect.Some? then Some(JArr(seq(|p.multiSelect.value|, i requires 0 <= i < |p.multiSelect.value| => SelectOptionJson(p.multiSelect.value[i])))) else None)
    + ValueOpt("number", if p.number.Some? then Some(JFloat(p.number.value)) else None)
    + ValueOpt("people", if p.people.Some? then Some(JArr(seq(|p.people.value|, i requires 0 <= i < |p.people.value| => UserJson(p.people.value[i])))) else None)
  }

  function ValueMembersC(p: PageProperty): (ms: seq<(string, Json)>)
    ensures forall m :: m in ms ==> !MetaKey(m.0)
    ensures |ms| == ValueCountC(p)
    decreases p, 0
  {
      ValueOpt("phone_number", if p.phoneNumber.Some? then Some(PhoneNumberJson(p.phoneNumber.value)) else None)
    + ValueOpt("relation", if p.relation.Some? then Some(JArr(seq(|p.relation.value|, i requires 0 <= i < |p.relation.value| => RelationJson(p.relation.value[i])))) else None)
    + ValueOpt("rich_text", if p.richText.Some? then Some(RichTextListJson(p.richText.value)) else None)
    + ValueOpt("rollup", if p.rollup.Some? then Some(RollupJson(p.rollup.value)) else None)
  }

  function ValueMembersD(p: PageProperty): (ms: seq<(string, Json)>)
    ensures forall m :: m in ms ==> !MetaKey(m.0)
    ensures |ms| == ValueCountD(p)
    decreases p, 0
  {
      ValueOpt("select", if p.select.Some? then Some(SelectOptionJson(p.select.value)) else None)
    + ValueOpt("status", if p.status.Some? then Some(SelectOptionJson(p.status.value)) else None)
    + ValueOpt("title", if p.title.Some? then Some(RichTextListJson(p.title.value)) else None)
  }

  function ValueMembersE(p: PageProperty): (ms: seq<(string, Json)>)
    ensures forall m :: m in ms ==> !MetaKey(m.0)
    ensures |ms| == ValueCountE(p)
    decreases p, 0
  {
      ValueOpt("url", if p.url.Some? then Some(JStr(p.url.value)) else None)
    + ValueOpt("unique_id", if p.uniqueId.Some? then Some(UniqueIdJson(p.uniqueId.value)) else None)
  }

  /** No metadata key is ever serialised. */
  lemma MetadataNeverSerialised(p: PageProperty, k: string)
    requires MetaKey(k)
    ensures !Emits(PagePropertyJson(p), k)
  {
    assert forall m: (string, Json) :: m in ValueMembers(p) ==> m.0 != k;
  }

  /** One member per present value: `None` values are omitted, so a constructed property has one member. */
  lemma PagePropertyJsonSize(p: PageProperty)
    ensures |PagePropertyJson(p).members| == ValueCount(p)
    ensures Single(p) ==> |PagePropertyJson(p).members| == 1
  {
  }

  /** The default property serialises to `{}`. */
  lemma DefaultPropertyIsEmpty()
    ensures PagePropertyJson(PageProperty.Default) == JObj([])
  {
    PagePropertyJsonSize(PageProperty.Default);
  }

  // ---------------------------------------------------------------- Page

  datatype Page = Page(
    parent: Parent,
    properties: map<string, PageProperty>,
    objectName: string,
    id: string,
    createdTime: string,
    lastEditedTime: string,
    createdBy: User,
    lastEditedBy: User,
    archived: bool,
    inTrash: bool,
    nextCursor: Option<string>,
    hasMore: bool,
    typeName: string,
    status: uint32,
    code: string,
    message: string)
  {
    /** `Page::default()`. */
    static const Default: Page := Page.Page(Parent(ParentType.Database, None, None, None, None), map[], "page", "", "", "",
      DefaultUser, DefaultUser, false, false, None, false, "page", 200, "", "")

    /** `Page::from_properties`: a default page whose properties are replaced. */
    static method FromProperties(properties: map<string, PageProperty>) returns (page: Page)
      ensures page.properties == properties
      ensures page.(properties := map[]) == Default
    {
      page := Default;
      page := page.(properties := properties);
    }
  }

  /** The properties, keyed by name; their order on the wire is unspecified. */
  function PropertiesJson(ps: map<string, PageProperty>): Json
  {
    JDict(map k | k in ps :: PagePropertyJson(ps[k]))
  }

  /** The serialised page: `parent`, `properties`, and `archived` only when true. */
  function PageJson(p: Page): (j: Json)
    ensures j.JObj?
    ensures Keys(j.members) == ["parent", "properties"] + (if p.archived then ["archived"] else [])
  {
    JObj(Field("parent", ParentJson(p.parent)) + Field("properties", PropertiesJson(p.properties))
      + IfTrue("archived", p.archived))
  }

  /** Pages that agree on parent, properties and `archived` serialise identically. */
  lemma PageJsonIgnoresOtherFields(p: Page, q: Page)
    requires p.parent == q.parent && p.properties == q.properties && p.archived == q.archived
    ensures PageJson(p) == PageJson(q)
  {
  }

  /** The default page: status 200, kind and type "page", a database parent without id, not archived, no cursor. */
  lemma DefaultPageFields()
    ensures Page.Default.status == 200 && Page.Default.objectName == "page" && Page.Default.typeName == "page"
    ensures Page.Default.parent.typeName == ParentType.Database
    ensures forall t: ParentType :: IdFor(Page.Default.parent, t).None?
    ensures !Page.Default.archived && !Page.Default.hasMore && Page.Default.nextCursor.None?
    ensures PageJson(Page.Default) == JObj([("parent", JObj([("type", JStr("database_id"))])), ("properties", JDict(map[]))])
  {
    var empty: map<string, PageProperty> := map[];
    assert (map k | k in empty :: PagePropertyJson(empty[k])) == map[];
    assert PropertiesJson(Page.Default.properties) == JDict(map[]);
    assert ParentJson(Page.Default.parent) == JObj([("type", JStr("database_id"))]);
  }

  /** A list of pages; `status`, `code` and `message` are decoded but never serialised. */
  datatype PageResponse = PageResponse(objectName: string, status: uint32, code: string, message: string, results: seq<Page>)

  function PageResponseJson(r: PageResponse): Json
  {
    JObj(Field("object", JStr(r.objectName))
      + Field("results", JArr(seq(|r.results|, i requires 0 <= i < |r.results| => PageJson(r.results[i])))))
  }

  /** `status`, `code` and `message` do not reach the serialised response. */
  lemma PageResponseIgnoresStatus(r: PageResponse, status: uint32, code: string, message: string)
    ensures PageResponseJson(r.(status := status, code := code, message := message)) == PageResponseJson(r)
    ensures !Emits(PageResponseJson(r), "status") && !Emits(PageResponseJson(r), "code")
  {
  }
}
