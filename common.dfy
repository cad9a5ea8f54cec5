/**
 * Values shared by pages, blocks and databases: colours, parents, rich text
 * and the small wrapper records, with the JSON each one serialises to.
 */
module Common {
  import opened Wrappers
  import opened Json

  // ---------------------------------------------------------------- Color

  /** The nineteen Notion colours; `Default` is the enum's default variant. */
  datatype Color =
    | Default | Blue | BlueBackground | Brown | BrownBackground | Gray | GrayBackground
    | Green | GreenBackground | Orange | OrangeBackground | Yellow | YellowBackground
    | Pink | PinkBackground | Purple | PurpleBackground | Red | RedBackground

  /** The serde wire name of a colour. */
  function ColorName(c: Color): string
  {
    match c
    case Default => "default"
    case Blue => "blue"
    case BlueBackground => "blue_background"
    case Brown => "brown"
    case BrownBackground => "brown_background"
    case Gray => "gray"
    case GrayBackground => "gray_background"
    case Green => "green"
    case GreenBackground => "green_background"
    case Orange => "orange"
    case OrangeBackground => "orange_background"
    case Yellow => "yellow"
    case YellowBackground => "yellow_background"
    case Pink => "pink"
    case PinkBackground => "pink_background"
    case Purple => "purple"
    case PurpleBackground => "purple_background"
    case Red => "red"
    case RedBackground => "red_background"
  }

  /** Decoding a wire name; `None` for a name no variant carries. */
  function ColorFromName(s: string): (r: Option<Color>)
    ensures r.Some? ==> ColorName(r.value) == s
  {
    if s == "default" then Some(Default)
    else if s == "blue" then Some(Blue)
    else if s == "blue_background" then Some(BlueBackground)
    else if s == "brown" then Some(Brown)
    else if s == "brown_background" then Some(BrownBackground)
    else if s == "gray" then Some(Gray)
    else if s == "gray_background" then Some(GrayBackground)
    else if s == "green" then Some(Green)
    else if s == "green_background" then Some(GreenBackground)
    else if s == "orange" then Some(Orange)
    else if s == "orange_background" then Some(OrangeBackground)
    else if s == "yellow" then Some(Yellow)
    else if s == "yellow_background" then Some(YellowBackground)
    else if s == "pink" then Some(Pink)
    else if s == "pink_background" then Some(PinkBackground)
    else if s == "purple" then Some(Purple)
    else if s == "purple_background" then Some(PurpleBackground)
    else if s == "red" then Some(Red)
    else if s == "red_background" then Some(RedBackground)
    else None
  }

  /** Every colour decodes back from its wire name. */
  lemma ColorRoundTrip(c: Color)
    ensures ColorFromName(ColorName(c)) == Some(c)
  {
    match c
    case Default =>
    case Blue =>
    case BlueBackground =>
    case Brown =>
    case BrownBackground =>
    case Gray =>
    case GrayBackground =>
    case Green =>
    case GreenBackground =>
    case Orange =>
    case OrangeBackground =>
    case Yellow =>
    case YellowBackground =>
    case Pink =>
    case PinkBackground =>
    case Purple =>
    case PurpleBackground =>
    case Red =>
    case RedBackground =>
  }

  /** No two colours share a wire name. */
  lemma ColorNameInjective(c: Color, d: Color)
    requires ColorName(c) == ColorName(d)
    ensures c == d
  {
    ColorRoundTrip(c);
    ColorRoundTrip(d);
  }

  // ---------------------------------------------------------------- Parent

  datatype ParentType = Database | Page | Workspace | Block

  /** `ParentType::default()`. */
  const DefaultParentType: ParentType := Database

  /** The serde wire name of a parent type; it is also the key of the matching id field. */
  function ParentTypeName(t: ParentType): string
  {
    match t
    case Database => "database_id"
    case Page => "page_id"
    case Workspace => "workspace_id"
    case Block => "block_id"
  }

  function ParentTypeFromName(s: string): (r: Option<ParentType>)
    ensures r.Some? ==> ParentTypeName(r.value) == s
  {
    if s == "database_id" then Some(Database)
    else if s == "page_id" then Some(Page)
    else if s == "workspace_id" then Some(Workspace)
    else if s == "block_id" then Some(Block)
    else None
  }

  lemma ParentTypeRoundTrip(t: ParentType)
    ensures ParentTypeFromName(ParentTypeName(t)) == Some(t)
    ensures forall u: ParentType :: ParentTypeName(u) == ParentTypeName(t) ==> u == t
  {
    forall u: ParentType | ParentTypeName(u) == ParentTypeName(t) ensures u == t {
      assert ParentTypeFromName(ParentTypeName(u)) == Some(u);
    }
  }

  datatype Parent = Parent(
    typeName: ParentType,
    databaseId: Option<string>,
    pageId: Option<string>,
    workspaceId: Option<string>,
    blockId: Option<string>)

  /** The derived `Parent::default()`: database type, no id. */
  const DefaultParent: Parent := Parent(DefaultParentType, None, None, None, None)

  /** The id field that belongs to parent type `t`. */
  function IdFor(p: Parent, t: ParentType): Option<string>
  {
    match t
    case Database => p.databaseId
    case Page => p.pageId
    case Workspace => p.workspaceId
    case Block => p.blockId
  }

  /** `Parent::from` and its four helpers: the type plus exactly its own id field. */
  function ParentFrom(t: ParentType, id: string): (p: Parent)
    ensures p.typeName == t
    ensures forall u: ParentType :: IdFor(p, u) == if u == t then Some(id) else None
  {
    match t
    case Database => Parent(Database, Some(id), None, None, None)
    case Page => Parent(Page, None, Some(id), None, None)
    case Workspace => Parent(Workspace, None, None, Some(id), None)
    case Block => Parent(Block, None, None, None, Some(id))
  }

  /** `type` always, then each id only when present. */
  function ParentJson(p: Parent): Json
  {
    JObj(Field("type", JStr(ParentTypeName(p.typeName)))
      + OptStr("database_id", p.databaseId) + OptStr("page_id", p.pageId)
      + OptStr("workspace_id", p.workspaceId) + OptStr("block_id", p.blockId))
  }

  /** An id key is emitted exactly when that id is present. */
  lemma ParentIdsOmittedWhenNone(p: Parent, t: ParentType)
    ensures Emits(ParentJson(p), ParentTypeName(t)) <==> IdFor(p, t).Some?
  {
    var ms := ParentJson(p).members;
    if IdFor(p, t).Some? {
      assert (ParentTypeName(t), JStr(IdFor(p, t).value)) in ms;
    }
  }

  /** A parent built by `from` serialises to its type and the one id under the key named by that type. */
  lemma ParentFromJson(t: ParentType, id: string)
    ensures ParentJson(ParentFrom(t, id))
         == JObj([("type", JStr(ParentTypeName(t))), (ParentTypeName(t), JStr(id))])
  {
  }

  // ---------------------------------------------------------------- small records

  datatype Icon = Icon(emoji: string)

  /** `Icon::from_str`. */
  function IconFromStr(emoji: string): (r: Icon)
    ensures IconJson(r) == JObj([("emoji", JStr(emoji))])
  {
    Icon(emoji)
  }

  function IconJson(i: Icon): Json
  {
    JObj(Field("emoji", JStr(i.emoji)))
  }

  datatype Date = Date(start: string)
  datatype Email = Email(email: string)
  datatype ExternalUrl = ExternalUrl(url: string)
  datatype PhoneNumber = PhoneNumber(phoneNumber: string)
  datatype Relation = Relation(id: string)
  /** `number` is a u128. */
  datatype UniqueId = UniqueId(number: uint128, prefix: string)
  datatype User = User(objectName: string, id: string, name: string, avatarUrl: Option<string>,
                       typeName: string, person: Email)
  datatype Formula = Formula(typeName: string, boolean: bool, date: string, number: F64, stringValue: string)
  datatype SelectOption = SelectOption(id: string, name: string, color: Color)
  datatype File = File(name: string, typeName: string, external: ExternalUrl, caption: seq<RichText>)

  const DefaultExternalUrl: ExternalUrl := ExternalUrl("")
  const DefaultUser: User := User("", "", "", None, "", Email(""))
  /** The derived `File::default()`. */
  const DefaultFile: File := File("", "", DefaultExternalUrl, [])

  function DateJson(d: Date): Json { JObj(Field("start", JStr(d.start))) }
  function EmailJson(e: Email): Json { JObj(Field("email", JStr(e.email))) }
  function ExternalUrlJson(u: ExternalUrl): Json { JObj(Field("url", JStr(u.url))) }
  function PhoneNumberJson(p: PhoneNumber): Json { JObj(Field("phone_number", JStr(p.phoneNumber))) }
  function RelationJson(r: Relation): Json { JObj(Field("id", JStr(r.id))) }
  function UniqueIdJson(u: UniqueId): Json
  {
    JObj(Field("number", JNum(u.number)) + Field("prefix", JStr(u.prefix)))
  }

  function UserJson(u: User): Json
  {
    JObj(Field("object", JStr(u.objectName)) + Field("id", JStr(u.id)) + Field("name", JStr(u.name))
      + Field("avatar_url", Nullable(u.avatarUrl)) + Field("type", JStr(u.typeName))
      + Field("person", EmailJson(u.person)))
  }

  function FormulaJson(f: Formula): Json
  {
    JObj(Field("type", JStr(f.typeName)) + Field("boolean", JBool(f.boolean)) + Field("date", JStr(f.date))
      + Field("number", JFloat(f.number)) + Field("string", JStr(f.stringValue)))
  }

  /** Only `name` is serialised: `id` and `color` are `skip_serializing`. */
  function SelectOptionJson(o: SelectOption): Json
  {
    JObj(Field("name", JStr(o.name)))
  }

  /** Two options that differ only in id or colour serialise identically. */
  lemma SelectOptionIgnoresIdAndColor(a: SelectOption, b: SelectOption)
    requires a.name == b.name
    ensures SelectOptionJson(a) == SelectOptionJson(b)
    ensures !Emits(SelectOptionJson(a), "id") && !Emits(SelectOptionJson(a), "color")
  {
  }

  function FileJson(f: File): Json
  {
    JObj(Field("name", JStr(f.name)) + Field("type", JStr(f.typeName))
      + Field("external", ExternalUrlJson(f.external))
      + (if f.caption == [] then [] else Field("caption", RichTextListJson(f.caption))))
  }

  /** `caption` is emitted exactly when it is non-empty. */
  lemma FileCaptionOmittedWhenEmpty(f: File)
    ensures Emits(FileJson(f), "caption") <==> f.caption != []
  {
    if f.caption != [] {
      assert ("caption", RichTextListJson(f.caption)) in FileJson(f).members;
    }
  }

  // ---------------------------------------------------------------- rich text

  datatype TextObject = TextObject(content: string, link: Option<string>)

  datatype AnnotationObject = AnnotationObject(
    bold: bool, italic: bool, strikethrough: bool, underline: bool, code: bool, color: string)

  datatype RichText = RichText(
    typeName: string, text: TextObject, annotations: AnnotationObject, plainText: string, href: Option<string>)

  /** `AnnotationObject::default()`. */
  function DefaultAnnotations(): (a: AnnotationObject)
    ensures !a.bold && !a.italic && !a.strikethrough && !a.underline && !a.code
    ensures a.color == ColorName(Color.Default)
  {
    AnnotationObject(false, false, false, false, false, "default")
  }

  /** `RichText::default()`. */
  function DefaultRichText(): (r: RichText)
    ensures r.typeName == "text" && r.text.content == "" && r.text.link.None?
    ensures r.annotations == DefaultAnnotations() && r.plainText == "" && r.href.None?
  {
    RichText("text", TextObject("", None), DefaultAnnotations(), "", None)
  }

  /**
   * `RichText::from_str`: the default rich text with `text.content` and
   * `plain_text` both set to the value.
   */
  function FromStr(value: string): (r: RichText)
    ensures r == DefaultRichText().(text := r.text, plainText := value)
    ensures r.text.content == value && r.text.link.None?
  {
    var text := TextObject(value, None);
    DefaultRichText().(typeName := "text", text := text, annotations := DefaultAnnotations(), plainText := value)
  }

  /**
   * `RichText::from_str_with_annotations`: the default rich text with the
   * content and the annotations replaced; `plain_text` stays empty.
   */
  function FromStrWithAnnotations(value: string, bold: bool, italic: bool, underline: bool,
                                  strikethrough: bool, code: bool, color: string): (r: RichText)
    ensures r == DefaultRichText().(text := r.text, annotations := r.annotations)
    ensures r.text.content == value && r.text.link.None?
    ensures r.annotations.bold == bold && r.annotations.italic == italic
    ensures r.annotations.underline == underline && r.annotations.strikethrough == strikethrough
    ensures r.annotations.code == code && r.annotations.color == color
  {
    var text := TextObject(value, None);
    var annotations := AnnotationObject(bold, italic, strikethrough, underline, code, color);
    DefaultRichText().(text := text, annotations := annotations)
  }

  /** `RichText::from_str` as written: a fresh default whose fields are assigned one by one. */
  method RichTextFromStr(value: string) returns (richText: RichText)
    ensures richText == FromStr(value)
    ensures richText.text.content == value && richText.plainText == value
  {
    var text := TextObject("", None);
    text := text.(content := value);
    var annotations := DefaultAnnotations();
    richText := DefaultRichText();
    richText := richText.(typeName := "text");
    richText := richText.(text := text);
    richText := richText.(annotations := annotations);
    richText := richText.(plainText := value);
  }

  /**
   * `RichText::from_str_with_annotations` as written: a fresh default whose
   * text and annotations are assigned; nothing sets `plain_text`.
   */
  method RichTextFromStrWithAnnotations(value: string, bold: bool, italic: bool, underline: bool,
                                        strikethrough: bool, code: bool, color: string)
    returns (richText: RichText)
    ensures richText == FromStrWithAnnotations(value, bold, italic, underline, strikethrough, code, color)
    ensures richText.plainText == ""
  {
    var text := TextObject("", None);
    text := text.(content := value);
    var annotations := AnnotationObject(bold, italic, strikethrough, underline, code, color);
    richText := DefaultRichText();
    richText := richText.(text := text);
    richText := richText.(annotations := annotations);
  }

  /**
   * With default annotations the two constructors agree on everything except
   * `plain_text`, which only `from_str` fills.
   */
  lemma FromStrVersusAnnotated(value: string)
    ensures FromStrWithAnnotations(value, false, false, false, false, false, "default")
         == FromStr(value).(plainText := "")
    ensures value != "" ==> FromStrWithAnnotations(value, false, false, false, false, false, "default") != FromStr(value)
  {
  }

  function AnnotationsJson(a: AnnotationObject): Json
  {
    JObj(Field("bold", JBool(a.bold)) + Field("italic", JBool(a.italic))
      + Field("strikethrough", JBool(a.strikethrough)) + Field("underline", JBool(a.underline))
      + Field("code", JBool(a.code)) + Field("color", JStr(a.color)))
  }

  /** Every rich-text field is serialised; a missing link or href becomes `null`. */
  function RichTextJson(r: RichText): Json
  {
    JObj(Field("type", JStr(r.typeName))
      + Field("text", JObj(Field("content", JStr(r.text.content)) + Field("link", Nullable(r.text.link))))
      + Field("annotations", AnnotationsJson(r.annotations))
      + Field("plain_text", JStr(r.plainText)) + Field("href", Nullable(r.href)))
  }

  function RichTextListJson(rs: seq<RichText>): (j: Json)
    ensures j.JArr? && |j.items| == |rs|
  {
    JArr(seq(|rs|, i requires 0 <= i < |rs| => RichTextJson(rs[i])))
  }

  /** A list of strings turned into rich text, one `from_str` per string. */
  function FromStrs(values: seq<string>): (rs: seq<RichText>)
    ensures |rs| == |values|
    ensures forall i :: 0 <= i < |values| ==> rs[i] == FromStr(values[i])
  {
    seq(|values|, i requires 0 <= i < |values| => FromStr(values[i]))
  }
}
