/**
 * Notion blocks: the payload records of the block types, the `Block` record
 * with its base fields and twenty-eight optional payloads, the `Block::*`
 * constructors, and the request and response wrappers of the block
 * endpoints.
 */
module Blocks {
  import opened Wrappers
  import opened Json
  import opened Common

  // ---------------------------------------------------------------- payload records

  datatype Bookmark = Bookmark(caption: seq<RichText>, url: string)
  datatype BulletedListItem = BulletedListItem(richText: seq<RichText>, color: Color, children: seq<Block>)
  datatype Callout = Callout(richText: seq<RichText>, icon: Option<Icon>, color: Color)
  datatype ChildDatabase = ChildDatabase(title: string)
  datatype ChildPage = ChildPage(title: string)
  datatype Code = Code(caption: seq<RichText>, richText: seq<RichText>, language: string)
  datatype Embed = Embed(url: string)
  datatype Equation = Equation(expression: string)
  datatype Heading = Heading(richText: seq<RichText>, color: Color, isToggleable: bool)
  datatype Image = Image(typeName: string, external: ExternalUrl)
  datatype LinkPreview = LinkPreview(url: string)
  datatype NumberedListItem = NumberedListItem(richText: seq<RichText>, color: Color, children: seq<Block>)
  datatype Pdf = Pdf(typeName: string, external: ExternalUrl)
  datatype Quote = Quote(richText: seq<RichText>, color: Color, children: seq<Block>)
  datatype Paragraph = Paragraph(richText: seq<RichText>, color: Color, children: seq<Block>)
  datatype Table = Table(tableWidth: uint32, hasColumnHeader: bool, hasRowHeader: bool)
  datatype TableRow = TableRow(cells: seq<RichText>)
  datatype TableOfContents = TableOfContents(color: Color)
  datatype ToDo = ToDo(richText: seq<RichText>, color: Color, checked: bool, children: seq<Block>)
  datatype ToggleBlock = ToggleBlock(richText: seq<RichText>, color: Color, children: seq<Block>)
  datatype Video = Video(typeName: string, external: ExternalUrl)

  /** The derived `Bookmark::default()`. */
  const DefaultBookmark: Bookmark := Bookmark([], "")
  /** The derived `BulletedListItem::default()`. */
  const DefaultBulletedListItem: BulletedListItem := BulletedListItem([], Color.Default, [])
  /** The derived `Callout::default()`. */
  const DefaultCallout: Callout := Callout([], None, Color.Default)
  /** The derived `ChildDatabase::default()`. */
  const DefaultChildDatabase: ChildDatabase := ChildDatabase("")
  /** The derived `ChildPage::default()`. */
  const DefaultChildPage: ChildPage := ChildPage("")
  /** The derived `Code::default()`. */
  const DefaultCode: Code := Code([], [], "")
  /** The derived `Embed::default()`. */
  const DefaultEmbed: Embed := Embed("")
  /** The derived `Equation::default()`. */
  const DefaultEquation: Equation := Equation("")
  /** The derived `Heading::default()`. */
  const DefaultHeading: Heading := Heading([], Color.Default, false)
  /** The derived `Image::default()`. */
  const DefaultImage: Image := Image("", DefaultExternalUrl)
  /** The derived `LinkPreview::default()`. */
  const DefaultLinkPreview: LinkPreview := LinkPreview("")
  /** The derived `NumberedListItem::default()`. */
  const DefaultNumberedListItem: NumberedListItem := NumberedListItem([], Color.Default, [])
  /** The derived `Pdf::default()`. */
  const DefaultPdf: Pdf := Pdf("", DefaultExternalUrl)
  /** The derived `Quote::default()`. */
  const DefaultQuote: Quote := Quote([], Color.Default, [])
  /** The derived `Paragraph::default()`. */
  const DefaultParagraph: Paragraph := Paragraph([], Color.Default, [])
  /** The derived `Table::default()`. */
  const DefaultTable: Table := Table(0, false, false)
  /** The derived `TableRow::default()`. */
  const DefaultTableRow: TableRow := TableRow([])
  /** The derived `TableOfContents::default()`. */
  const DefaultTableOfContents: TableOfContents := TableOfContents(Color.Default)
  /** The derived `ToDo::default()`. */
  const DefaultToDo: ToDo := ToDo([], Color.Default, false, [])
  /** The derived `ToggleBlock::default()`. */
  const DefaultToggleBlock: ToggleBlock := ToggleBlock([], Color.Default, [])
  /** The derived `Video::default()`. */
  const DefaultVideo: Video := Video("", DefaultExternalUrl)

  /** Every field of `Bookmark` is serialised, in field order. */
  function BookmarkJson(p: Bookmark): Json
  {
    JObj(Field("caption", RichTextListJson(p.caption))
      + Field("url", JStr(p.url)))
  }

  /** Every field of `BulletedListItem` is serialised, in field order. */
  function BulletedListItemJson(p: BulletedListItem): Json
    decreases p, 0
  {
    JObj(Field("rich_text", RichTextListJson(p.richText))
      + Field("color", JStr(ColorName(p.color)))
      + Field("children", JArr(seq(|p.children|, i requires 0 <= i < |p.children| => BlockJson(p.children[i])))))
  }

  /** Every field of `Callout` is serialised, in field order. */
  function CalloutJson(p: Callout): Json
  {
    JObj(Field("rich_text", RichTextListJson(p.richText))
      + Field("icon", (if p.icon.Some? then IconJson(p.icon.value) else JNull))
      + Field("color", JStr(ColorName(p.color))))
  }

  /** Every field of `ChildDatabase` is serialised, in field order. */
  function ChildDatabaseJson(p: ChildDatabase): Json
  {
    JObj(Field("title", JStr(p.title)))
  }

  /** Every field of `ChildPage` is serialised, in field order. */
  function ChildPageJson(p: ChildPage): Json
  {
    JObj(Field("title", JStr(p.title)))
  }

  /** Every field of `Code` is serialised, in field order. */
  function CodeJson(p: Code): Json
  {
    JObj(Field("caption", RichTextListJson(p.caption))
      + Field("rich_text", RichTextListJson(p.richText))
      + Field("language", JStr(p.language)))
  }

  /** Every field of `Embed` is serialised, in field order. */
  function EmbedJson(p: Embed): Json
  {
    JObj(Field("url", JStr(p.url)))
  }

  /** Every field of `Equation` is serialised, in field order. */
  function EquationJson(p: Equation): Json
  {
    JObj(Field("expression", JStr(p.expression)))
  }

  /** Every field of `Heading` is serialised, in field order. */
  function HeadingJson(p: Heading): Json
  {
    JObj(Field("rich_text", RichTextListJson(p.richText))
      + Field("color", JStr(ColorName(p.color)))
      + Field("is_toggleable", JBool(p.isToggleable)))
  }

  /** Every field of `Image` is serialised, in field order. */
  function ImageJson(p: Image): Json
  {
    JObj(Field("type", JStr(p.typeName))
      + Field("external", ExternalUrlJson(p.external)))
  }

  /** Every field of `LinkPreview` is serialised, in field order. */
  function LinkPreviewJson(p: LinkPreview): Json
  {
    JObj(Field("url", JStr(p.url)))
  }

  /** Every field of `NumberedListItem` is serialised, in field order. */
  function NumberedListItemJson(p: NumberedListItem): Json
    decreases p, 0
  {
    JObj(Field("rich_text", RichTextListJson(p.richText))
      + Field("color", JStr(ColorName(p.color)))
      + Field("children", JArr(seq(|p.children|, i requires 0 <= i < |p.children| => BlockJson(p.children[i])))))
  }

  /** Every field of `Pdf` is serialised, in field order. */
  function PdfJson(p: Pdf): Json
  {
    JObj(Field("type", JStr(p.typeName))
      + Field("external", ExternalUrlJson(p.external)))
  }

  /** Every field of `Quote` is serialised, in field order. */
  function QuoteJson(p: Quote): Json
    decreases p, 0
  {
    JObj(Field("rich_text", RichTextListJson(p.richText))
      + Field("color", JStr(ColorName(p.color)))
      + Field("children", JArr(seq(|p.children|, i requires 0 <= i < |p.children| => BlockJson(p.children[i])))))
  }

  /** Every field of `Paragraph` is serialised, in field order. */
  function ParagraphJson(p: Paragraph): Json
    decreases p, 0
  {
    JObj(Field("rich_text", RichTextListJson(p.richText))
      + Field("color", JStr(ColorName(p.color)))
      + Field("children", JArr(seq(|p.children|, i requires 0 <= i < |p.children| => BlockJson(p.children[i])))))
  }

  /** Every field of `Table` is serialised, in field order. */
  function TableJson(p: Table): Json
  {
    JObj(Field("table_width", JNum(p.tableWidth))
      + Field("has_column_header", JBool(p.hasColumnHeader))
      + Field("has_row_header", JBool(p.hasRowHeader)))
  }

  /** Every field of `TableRow` is serialised, in field order. */
  function TableRowJson(p: TableRow): Json
  {
    JObj(Field("cells", RichTextListJson(p.cells)))
  }

  /** Every field of `TableOfContents` is serialised, in field order. */
  function TableOfContentsJson(p: TableOfContents): Json
  {
    JObj(Field("color", JStr(ColorName(p.color))))
  }

  /** Every field of `ToDo` is serialised, in field order. */
  function ToDoJson(p: ToDo): Json
    decreases p, 0
  {
    JObj(Field("rich_text", RichTextListJson(p.richText))
      + Field("color", JStr(ColorName(p.color)))
      + Field("checked", JBool(p.checked))
      + Field("children", JArr(seq(|p.children|, i requires 0 <= i < |p.children| => BlockJson(p.children[i])))))
  }

  /** Every field of `ToggleBlock` is serialised, in field order. */
  function ToggleBlockJson(p: ToggleBlock): Json
    decreases p, 0
  {
    JObj(Field("rich_text", RichTextListJson(p.richText))
      + Field("color", JStr(ColorName(p.color)))
      + Field("children", JArr(seq(|p.children|, i requires 0 <= i < |p.children| => BlockJson(p.children[i])))))
  }

  /** Every field of `Video` is serialised, in field order. */
  function VideoJson(p: Video): Json
  {
    JObj(Field("type", JStr(p.typeName))
      + Field("external", ExternalUrlJson(p.external)))
  }

  /**
   * A block: the base fields and twenty-eight optional payloads, one per
   * block type.
   */
  datatype Block = Block(
    parent: Parent,
    objectName: string,
    id: string,
    createdTime: string,
    lastEditedTime: string,
    createdBy: User,
    lastEditedBy: User,
    archived: bool,
    inTrash: bool,
    typeName: string,
    hasChildren: bool,
    isTogglable: bool,
    bookmark: Option<Bookmark>,
    breadcrumb: Option<map<string, string>>,
    bulletedListItem: Option<BulletedListItem>,
    callout: Option<Callout>,
    childDatabase: Option<ChildDatabase>,
    childPage: Option<ChildPage>,
    code: Option<Code>,
    columnList: Option<map<string, string>>,
    column: Option<map<string, string>>,
    divider: Option<map<string, string>>,
    embed: Option<Embed>,
    equation: Option<Equation>,
    file: Option<File>,
    heading1: Option<Heading>,
    heading2: Option<Heading>,
    heading3: Option<Heading>,
    image: Option<Image>,
    linkPreview: Option<LinkPreview>,
    numberedListItem: Option<NumberedListItem>,
    paragraph: Option<Paragraph>,
    pdf: Option<Pdf>,
    quote: Option<Quote>,
    table: Option<Table>,
    tableRow: Option<TableRow>,
    tableOfContents: Option<TableOfContents>,
    toDo: Option<ToDo>,
    toggle: Option<ToggleBlock>,
    video: Option<Video>)
  {
    /** `Block::bookmark`: type "bookmark" and the `bookmark` payload only. */
    static function Bookmark(parentType: ParentType, parentId: string, caption: string, url: string): (r: Block)
      ensures Constructed(r, parentType, parentId, "bookmark") && r.bookmark.Some?
      ensures r.bookmark.value.caption == [FromStr(caption)]
      ensures r.bookmark.value.url == url
    {
      DefaultBlock.(parent := ParentFrom(parentType, parentId), typeName := "bookmark", bookmark := Some(DefaultBookmark.(caption := [FromStr(caption)], url := url)))
    }

    /** `Block::breadcrumb`: type "breadcrumb" and the `breadcrumb` payload only. */
    static function Breadcrumb(parentType: ParentType, parentId: string): (r: Block)
      ensures Constructed(r, parentType, parentId, "breadcrumb") && r.breadcrumb.Some?
      ensures r.breadcrumb.value == map[]
    {
      DefaultBlock.(parent := ParentFrom(parentType, parentId), typeName := "breadcrumb", breadcrumb := Some(map[]))
    }

    /** `Block::bulleted_list_item`: type "bulleted_list_item" and the `bulleted_list_item` payload only. */
    static function BulletedListItem(parentType: ParentType, parentId: string, texts: seq<string>): (r: Block)
      ensures Constructed(r, parentType, parentId, "bulleted_list_item") && r.bulletedListItem.Some?
      ensures |r.bulletedListItem.value.richText| == |texts|
      ensures forall i :: 0 <= i < |texts| ==> r.bulletedListItem.value.richText[i] == FromStr(texts[i])
      ensures r.bulletedListItem.value.color == Color.Default && r.bulletedListItem.value.children == []
    {
      DefaultBlock.(parent := ParentFrom(parentType, parentId), typeName := "bulleted_list_item", bulletedListItem := Some(DefaultBulletedListItem.(richText := FromStrs(texts))))
    }

    /** `Block::callout`: type "callout" and the `callout` payload only. */
    static function Callout(parentType: ParentType, parentId: string, text: string, icon: Icon, color: Color): (r: Block)
      ensures Constructed(r, parentType, parentId, "callout") && r.callout.Some?
      ensures r.callout.value.richText == [FromStr(text)]
      ensures r.callout.value.icon == Some(icon) && r.callout.value.color == color
    {
      DefaultBlock.(parent := ParentFrom(parentType, parentId), typeName := "callout", callout := Some(DefaultCallout.(richText := [FromStr(text)], icon := Some(icon), color := color)))
    }

    /** `Block::child_database`: type "child_database" and the `child_database` payload only. */
    static function ChildDatabase(parentType: ParentType, parentId: string, title: string): (r: Block)
      ensures Constructed(r, parentType, parentId, "child_database") && r.childDatabase.Some?
      ensures r.childDatabase.value.title == title
    {
      DefaultBlock.(parent := ParentFrom(parentType, parentId), typeName := "child_database", childDatabase := Some(DefaultChildDatabase.(title := title)))
    }

    /** `Block::child_page`: type "child_page" and the `child_page` payload only. */
    static function ChildPage(parentType: ParentType, parentId: string, title: string): (r: Block)
      ensures Constructed(r, parentType, parentId, "child_page") && r.childPage.Some?
      ensures r.childPage.value.title == title
    {
      DefaultBlock.(parent := ParentFrom(parentType, parentId), typeName := "child_page", childPage := Some(DefaultChildPage.(title := title)))
    }

    /** `Block::code`: type "code" and the `code` payload only. */
    static function Code(parentType: ParentType, parentId: string, caption: string, language: string, texts: seq<string>): (r: Block)
      ensures Constructed(r, parentType, parentId, "code") && r.code.Some?
      ensures r.code.value.caption == [FromStr(caption)]
      ensures |r.code.value.richText| == |texts|
      ensures forall i :: 0 <= i < |texts| ==> r.code.value.richText[i] == FromStr(texts[i])
      ensures r.code.value.language == language
    {
      DefaultBlock.(parent := ParentFrom(parentType, parentId), typeName := "code", code := Some(DefaultCode.(caption := [FromStr(caption)], richText := FromStrs(texts), language := language)))
    }

    /** `Block::column_list`: type "column_list" and the `column_list` payload only. */
    static function ColumnList(parentType: ParentType, parentId: string): (r: Block)
      ensures Constructed(r, parentType, parentId, "column_list") && r.columnList.Some?
      ensures r.columnList.value == map[]
    {
      DefaultBlock.(parent := ParentFrom(parentType, parentId), typeName := "column_list", columnList := Some(map[]))
    }

    /** `Block::column`: type "column" and the `column` payload only. */
    static function Column(parentType: ParentType, parentId: string): (r: Block)
      ensures Constructed(r, parentType, parentId, "column") && r.column.Some?
      ensures r.column.value == map[]
    {
      DefaultBlock.(parent := ParentFrom(parentType, parentId), typeName := "column", column := Some(map[]))
    }

    /** `Block::divider`: type "divider" and the `divider` payload only. */
    static function Divider(parentType: ParentType, parentId: string): (r: Block)
      ensures Constructed(r, parentType, parentId, "divider") && r.divider.Some?
      ensures r.divider.value == map[]
    {
      DefaultBlock.(parent := ParentFrom(parentType, parentId), typeName := "divider", divider := Some(map[]))
    }

    /** `Block::embed`: type "embed" and the `embed` payload only. */
    static function Embed(parentType: ParentType, parentId: string, url: string): (r: Block)
      ensures Constructed(r, parentType, parentId, "embed") && r.embed.Some?
      ensures r.embed.value.url == url
    {
      DefaultBlock.(parent := ParentFrom(parentType, parentId), typeName := "embed", embed := Some(DefaultEmbed.(url := url)))
    }

    /** `Block::equation`: type "equation" and the `equation` payload only. */
    static function Equation(parentType: ParentType, parentId: string, expression: string): (r: Block)
      ensures Constructed(r, parentType, parentId, "equation") && r.equation.Some?
      ensures r.equation.value.expression == expression
    {
      DefaultBlock.(parent := ParentFrom(parentType, parentId), typeName := "equation", equation := Some(DefaultEquation.(expression := expression)))
    }

    /** `Block::file`: type "file" and the `file` payload only. */
    static function File(parentType: ParentType, parentId: string): (r: Block)
      ensures Constructed(r, parentType, parentId, "file") && r.file.Some?
      ensures r.file.value == DefaultFile
    {
      DefaultBlock.(parent := ParentFrom(parentType, parentId), typeName := "file", file := Some(DefaultFile))
    }

    /** `Block::heading_1`: type "heading_1" and the `heading_1` payload only. */
    static function Heading1(parentType: ParentType, parentId: string, texts: seq<string>): (r: Block)
      ensures Constructed(r, parentType, parentId, "heading_1") && r.heading1.Some?
      ensures |r.heading1.value.richText| == |texts|
      ensures forall i :: 0 <= i < |texts| ==> r.heading1.value.richText[i] == FromStr(texts[i])
      ensures r.heading1.value.color == Color.Default && !r.heading1.value.isToggleable
    {
      DefaultBlock.(parent := ParentFrom(parentType, parentId), typeName := "heading_1", heading1 := Some(DefaultHeading.(richText := FromStrs(texts))))
    }

    /** `Block::heading_2`: type "heading_2" and the `heading_2` payload only. */
    static function Heading2(parentType: ParentType, parentId: string, texts: seq<string>): (r: Block)
      ensures Constructed(r, parentType, parentId, "heading_2") && r.heading2.Some?
      ensures |r.heading2.value.richText| == |texts|
      ensures forall i :: 0 <= i < |texts| ==> r.heading2.value.richText[i] == FromStr(texts[i])
      ensures r.heading2.value.color == Color.Default && !r.heading2.value.isToggleable
    {
      DefaultBlock.(parent := ParentFrom(parentType, parentId), typeName := "heading_2", heading2 := Some(DefaultHeading.(richText := FromStrs(texts))))
    }

    /** `Block::heading_3`: type "heading_3" and the `heading_3` payload only. */
    static function Heading3(parentType: ParentType, parentId: string, texts: seq<string>): (r: Block)
      ensures Constructed(r, parentType, parentId, "heading_3") && r.heading3.Some?
      ensures |r.heading3.value.richText| == |texts|
      ensures forall i :: 0 <= i < |texts| ==> r.heading3.value.richText[i] == FromStr(texts[i])
      ensures r.heading3.value.color == Color.Default && !r.heading3.value.isToggleable
    {
      DefaultBlock.(parent := ParentFrom(parentType, parentId), typeName := "heading_3", heading3 := Some(DefaultHeading.(richText := FromStrs(texts))))
    }

    /** `Block::image`: type "image" and the `image` payload only. */
    static function Image(parentType: ParentType, parentId: string, url: string): (r: Block)
      ensures Constructed(r, parentType, parentId, "image") && r.image.Some?
      ensures r.image.value.typeName == "external" && r.image.value.external.url == url
    {
      DefaultBlock.(parent := ParentFrom(parentType, parentId), typeName := "image", image := Some(DefaultImage.(typeName := "external", external := ExternalUrl(url))))
    }

    /** `Block::link_preview`: type "link_preview" and the `link_preview` payload only. */
    static function LinkPreview(parentType: ParentType, parentId: string, url: string): (r: Block)
      ensures Constructed(r, parentType, parentId, "link_preview") && r.linkPreview.Some?
      ensures r.linkPreview.value.url == url
    {
      DefaultBlock.(parent := ParentFrom(parentType, parentId), typeName := "link_preview", linkPreview := Some(DefaultLinkPreview.(url := url)))
    }

    /** `Block::numbered_list_item`: type "numbered_list_item" and the `numbered_list_item` payload only. */
    static function NumberedListItem(parentType: ParentType, parentId: string, texts: seq<string>): (r: Block)
      ensures Constructed(r, parentType, parentId, "numbered_list_item") && r.numberedListItem.Some?
      ensures |r.numberedListItem.value.richText| == |texts|
      ensures forall i :: 0 <= i < |texts| ==> r.numberedListItem.value.richText[i] == FromStr(texts[i])
      ensures r.numberedListItem.value.color == Color.Default && r.numberedListItem.value.children == []
    {
      DefaultBlock.(parent := ParentFrom(parentType, parentId), typeName := "numbered_list_item", numberedListItem := Some(DefaultNumberedListItem.(richText := FromStrs(texts))))
    }

    /** `Block::paragraph`: type "paragraph" and the `paragraph` payload only. */
    static function Paragraph(parentType: ParentType, parentId: string, texts: seq<string>): (r: Block)
      ensures Constructed(r, parentType, parentId, "paragraph") && r.paragraph.Some?
      ensures |r.paragraph.value.richText| == |texts|
      ensures forall i :: 0 <= i < |texts| ==> r.paragraph.value.richText[i] == FromStr(texts[i])
      ensures r.paragraph.value.color == Color.Default && r.paragraph.value.children == []
    {
      DefaultBlock.(parent := ParentFrom(parentType, parentId), typeName := "paragraph", paragraph := Some(DefaultParagraph.(richText := FromStrs(texts))))
    }

    /** `Block::pdf`: type "pdf" and the `pdf` payload only. */
    static function Pdf(parentType: ParentType, parentId: string, url: string): (r: Block)
      ensures Constructed(r, parentType, parentId, "pdf") && r.pdf.Some?
      ensures r.pdf.value.typeName == "external" && r.pdf.value.external.url == url
    {
      DefaultBlock.(parent := ParentFrom(parentType, parentId), typeName := "pdf", pdf := Some(DefaultPdf.(typeName := "external", external := ExternalUrl(url))))
    }

    /** `Block::quote`: type "quote" and the `quote` payload only. */
    static function Quote(parentType: ParentType, parentId: string, texts: seq<string>): (r: Block)
      ensures Constructed(r, parentType, parentId, "quote") && r.quote.Some?
      ensures |r.quote.value.richText| == |texts|
      ensures forall i :: 0 <= i < |texts| ==> r.quote.value.richText[i] == FromStr(texts[i])
      ensures r.quote.value.color == Color.Default && r.quote.value.children == []
    {
      DefaultBlock.(parent := ParentFrom(parentType, parentId), typeName := "quote", quote := Some(DefaultQuote.(richText := FromStrs(texts))))
    }

    /** `Block::table`: type "table" and the `table` payload only. */
    static function Table(parentType: ParentType, parentId: string): (r: Block)
      ensures Constructed(r, parentType, parentId, "table") && r.table.Some?
      ensures r.table.value.tableWidth == 0 && !r.table.value.hasColumnHeader && !r.table.value.hasRowHeader
    {
      DefaultBlock.(parent := ParentFrom(parentType, parentId), typeName := "table", table := Some(DefaultTable))
    }

    /** `Block::table_row`: type "table_row" and the `table_row` payload only. */
    static function TableRow(parentType: ParentType, parentId: string, cells: seq<string>): (r: Block)
      ensures Constructed(r, parentType, parentId, "table_row") && r.tableRow.Some?
      ensures |r.tableRow.value.cells| == |cells|
      ensures forall i :: 0 <= i < |cells| ==> r.tableRow.value.cells[i] == FromStr(cells[i])
    {
      DefaultBlock.(parent := ParentFrom(parentType, parentId), typeName := "table_row", tableRow := Some(DefaultTableRow.(cells := FromStrs(cells))))
    }

    /** `Block::table_of_contents`: type "table_of_contents" and the `table_of_contents` payload only. */
    static function TableOfContents(parentType: ParentType, parentId: string): (r: Block)
      ensures Constructed(r, parentType, parentId, "table_of_contents") && r.tableOfContents.Some?
      ensures r.tableOfContents.value.color == Color.Default
    {
      DefaultBlock.(parent := ParentFrom(parentType, parentId), typeName := "table_of_contents", tableOfContents := Some(DefaultTableOfContents))
    }

    /** `Block::to_do`: type "to_do" and the `to_do` payload only. */
    static function ToDo(parentType: ParentType, parentId: string, texts: seq<string>, checked: bool): (r: Block)
      ensures Constructed(r, parentType, parentId, "to_do") && r.toDo.Some?
      ensures |r.toDo.value.richText| == |texts|
      ensures forall i :: 0 <= i < |texts| ==> r.toDo.value.richText[i] == FromStr(texts[i])
      ensures r.toDo.value.checked == checked && r.toDo.value.color == Color.Default && r.toDo.value.children == []
    {
      DefaultBlock.(parent := ParentFrom(parentType, parentId), typeName := "to_do", toDo := Some(DefaultToDo.(richText := FromStrs(texts), checked := checked)))
    }

    /** `Block::toggle_blocks`: type "toggle" and the `toggle` payload only. */
    static function ToggleBlocks(parentType: ParentType, parentId: string, texts: seq<string>): (r: Block)
      ensures Constructed(r, parentType, parentId, "toggle") && r.toggle.Some?
      ensures |r.toggle.value.richText| == |texts|
      ensures forall i :: 0 <= i < |texts| ==> r.toggle.value.richText[i] == FromStr(texts[i])
      ensures r.toggle.value.color == Color.Default && r.toggle.value.children == []
    {
      DefaultBlock.(parent := ParentFrom(parentType, parentId), typeName := "toggle", toggle := Some(DefaultToggleBlock.(richText := FromStrs(texts))))
    }

    /** `Block::video`: type "video" and the `video` payload only. */
    static function Video(parentType: ParentType, parentId: string, url: string): (r: Block)
      ensures Constructed(r, parentType, parentId, "video") && r.video.Some?
      ensures r.video.value.typeName == "external" && r.video.value.external.url == url
    {
      DefaultBlock.(parent := ParentFrom(parentType, parentId), typeName := "video", video := Some(DefaultVideo.(typeName := "external", external := ExternalUrl(url))))
    }
  }


  /** `Block::default()`: an object of kind "block" with a block-typed parent, no type and no payload. */
  const DefaultBlock: Block := Block.Block(Parent(ParentType.Block, None, None, None, None), "block", "", "", "", DefaultUser, DefaultUser,
    false, false, "", false, false, None, None, None, None, None, None, None, None, None, None, None, None, None, None, None, None, None, None, None, None, None, None, None, None, None, None, None, None)

  /** How many of the twenty-eight payloads of a block are present. */
  function PayloadCount(b: Block): nat
  {
    PayloadCountA(b) + PayloadCountB(b) + PayloadCountC(b) + PayloadCountD(b) + PayloadCountE(b) + PayloadCountF(b) + PayloadCountG(b)
  }

  function PayloadCountA(b: Block): nat
  {
    (if b.bookmark.Some? then 1 else 0)
    + (if b.breadcrumb.Some? then 1 else 0)
    + (if b.bulletedListItem.Some? then 1 else 0)
    + (if b.callout.Some? then 1 else 0)
  }

  function PayloadCountB(b: Block): nat
  {
    (if b.childDatabase.Some? then 1 else 0)
    + (if b.childPage.Some? then 1 else 0)
    + (if b.code.Some? then 1 else 0)
    + (if b.columnList.Some? then 1 else 0)
  }

  function PayloadCountC(b: Block): nat
  {
    (if b.column.Some? then 1 else 0)
    + (if b.divider.Some? then 1 else 0)
    + (if b.embed.Some? then 1 else 0)
    + (if b.equation.Some? then 1 else 0)
  }

  function PayloadCountD(b: Block): nat
  {
    (if b.file.Some? then 1 else 0)
    + (if b.heading1.Some? then 1 else 0)
    + (if b.heading2.Some? then 1 else 0)
    + (if b.heading3.Some? then 1 else 0)
  }

  function PayloadCountE(b: Block): nat
  {
    (if b.image.Some? then 1 else 0)
    + (if b.linkPreview.Some? then 1 else 0)
    + (if b.numberedListItem.Some? then 1 else 0)
    + (if b.paragraph.Some? then 1 else 0)
  }

  function PayloadCountF(b: Block): nat
  {
    (if b.pdf.Some? then 1 else 0)
    + (if b.quote.Some? then 1 else 0)
    + (if b.table.Some? then 1 else 0)
    + (if b.tableRow.Some? then 1 else 0)
  }

  function PayloadCountG(b: Block): nat
  {
    (if b.tableOfContents.Some? then 1 else 0)
    + (if b.toDo.Some? then 1 else 0)
    + (if b.toggle.Some? then 1 else 0)
    + (if b.video.Some? then 1 else 0)
  }

  /**
   * The serialised block: `object`, `archived` only when true, `type`, then
   * every present payload in field order. The parent, id, times, users,
   * `in_trash`, `has_children` and `is_togglable` are never serialised.
   */
  function BlockJson(b: Block): (j: Json)
    decreases b, 2
  {
    JObj(HeadMembers(b) + PayloadMembers(b))
  }

  function PayloadMembersA(b: Block): (ms: seq<(string, Json)>)
    ensures forall m :: m in ms ==> !BaseKey(m.0)
    ensures |ms| == PayloadCountA(b)
    decreases b, 0
  {
      PayloadOpt("bookmark", if b.bookmark.Some? then Some(BookmarkJson(b.bookmark.value)) else None)
    + PayloadOpt("breadcrumb", if b.breadcrumb.Some? then Some(StrDict(b.breadcrumb.value)) else None)
    + PayloadOpt("bulleted_list_item", if b.bulletedListItem.Some? then Some(BulletedListItemJson(b.bulletedListItem.value)) else None)
    + PayloadOpt("callout", if b.callout.Some? then Some(CalloutJson(b.callout.value)) else None)
  }

  function PayloadMembersB(b: Block): (ms: seq<(string, Json)>)
    ensures forall m :: m in ms ==> !BaseKey(m.0)
    ensures |ms| == PayloadCountB(b)
    decreases b, 0
  {
      PayloadOpt("child_database", if b.childDatabase.Some? then Some(ChildDatabaseJson(b.childDatabase.value)) else None)
    + PayloadOpt("child_page", if b.childPage.Some? then Some(ChildPageJson(b.childPage.value)) else None)
    + PayloadOpt("code", if b.code.Some? then Some(CodeJson(b.code.value)) else None)
    + PayloadOpt("column_list", if b.columnList.Some? then Some(StrDict(b.columnList.value)) else None)
  }

  function PayloadMembersC(b: Block): (ms: seq<(string, Json)>)
    ensures forall m :: m in ms ==> !BaseKey(m.0)
    ensures |ms| == PayloadCountC(b)
    decreases b, 0
  {
      PayloadOpt("column", if b.column.Some? then Some(StrDict(b.column.value)) else None)
    + PayloadOpt("divider", if b.divider.Some? then Some(StrDict(b.divider.value)) else None)
    + PayloadOpt("embed", if b.embed.Some? then Some(EmbedJson(b.embed.value)) else None)
    + PayloadOpt("equation", if b.equation.Some? then Some(EquationJson(b.equation.value)) else None)
  }

  function PayloadMembersD(b: Block): (ms: seq<(string, Json)>)
    ensures forall m :: m in ms ==> !BaseKey(m.0)
    ensures |ms| == PayloadCountD(b)
    decreases b, 0
  {
      PayloadOpt("file", if b.file.Some? then Some(FileJson(b.file.value)) else None)
    + PayloadOpt("heading_1", if b.heading1.Some? then Some(HeadingJson(b.heading1.value)) else None)
    + PayloadOpt("heading_2", if b.heading2.Some? then Some(HeadingJson(b.heading2.value)) else None)
    + PayloadOpt("heading_3", if b.heading3.Some? then Some(HeadingJson(b.heading3.value)) else None)
  }

  function PayloadMembersE(b: Block): (ms: seq<(string, Json)>)
    ensures forall m :: m in ms ==> !BaseKey(m.0)
    ensures |ms| == PayloadCountE(b)
    decreases b, 0
  {
      PayloadOpt("image", if b.image.Some? then Some(ImageJson(b.image.value)) else None)
    + PayloadOpt("link_preview", if b.linkPreview.Some? then Some(LinkPreviewJson(b.linkPreview.value)) else None)
    + PayloadOpt("numbered_list_item", if b.numberedListItem.Some? then Some(NumberedListItemJson(b.numberedListItem.value)) else None)
    + PayloadOpt("paragraph", if b.paragraph.Some? then Some(ParagraphJson(b.paragraph.value)) else None)
  }

  function PayloadMembersF(b: Block): (ms: seq<(string, Json)>)
    ensures forall m :: m in ms ==> !BaseKey(m.0)
    ensures |ms| == PayloadCountF(b)
    decreases b, 0
  {
      PayloadOpt("pdf", if b.pdf.Some? then Some(PdfJson(b.pdf.value)) else None)
    + PayloadOpt("quote", if b.quote.Some? then Some(QuoteJson(b.quote.value)) else None)
    + PayloadOpt("table", if b.table.Some? then Some(TableJson(b.table.value)) else None)
    + PayloadOpt("table_row", if b.tableRow.Some? then Some(TableRowJson(b.tableRow.value)) else None)
  }

  function PayloadMembersG(b: Block): (ms: seq<(string, Json)>)
    ensures forall m :: m in ms ==> !BaseKey(m.0)
    ensures |ms| == PayloadCountG(b)
    decreases b, 0
  {
      PayloadOpt("table_of_contents", if b.tableOfContents.Some? then Some(TableOfContentsJson(b.tableOfContents.value)) else None)
    + PayloadOpt("to_do", if b.toDo.Some? then Some(ToDoJson(b.toDo.value)) else None)
    + PayloadOpt("toggle", if b.toggle.Some? then Some(ToggleBlockJson(b.toggle.value)) else None)
    + PayloadOpt("video", if b.video.Some? then Some(VideoJson(b.video.value)) else None)
  }


  /**
   * The base fields of a constructed block: built by `Parent::from`, kind
   * "block", the given type tag, every other base field at its default and
   * exactly one payload present.
   */
  predicate Constructed(b: Block, parentType: ParentType, parentId: string, tag: string)
  {
    && b.parent == ParentFrom(parentType, parentId)
    && b.objectName == "block" && b.typeName == tag
    && b.id == "" && b.createdTime == "" && b.lastEditedTime == ""
    && b.createdBy == DefaultUser && b.lastEditedBy == DefaultUser
    && !b.archived && !b.inTrash && !b.hasChildren && !b.isTogglable
    && PayloadCount(b) == 1
  }


  /** A present payload under its key; `key` names no base field. */
  function PayloadOpt(key: string, v: Option<Json>): (ms: seq<(string, Json)>)
    requires !BaseKey(key)
    ensures forall m :: m in ms ==> !BaseKey(m.0)
    ensures |ms| == if v.Some? then 1 else 0
  {
    Opt(key, v)
  }

  /** Keys of the base fields; no payload is serialised under one of them. */
  predicate BaseKey(k: string)
  {
    k in {"parent", "object", "id", "created_time", "last_edited_time", "created_by",
          "last_edited_by", "archived", "in_trash", "type", "has_children", "is_togglable"}
  }

  /** All payload members of a block, in field order. */
  function PayloadMembers(b: Block): (ms: seq<(string, Json)>)
    ensures forall m :: m in ms ==> !BaseKey(m.0)
    ensures |ms| == PayloadCount(b)
    decreases b, 1
  {
    PayloadMembersA(b) + PayloadMembersB(b) + PayloadMembersC(b) + PayloadMembersD(b)
      + PayloadMembersE(b) + PayloadMembersF(b) + PayloadMembersG(b)
  }

  /** The members a block serialises before its payloads. */
  function HeadMembers(b: Block): seq<(string, Json)>
  {
    Field("object", JStr(b.objectName)) + IfTrue("archived", b.archived) + Field("type", JStr(b.typeName))
  }

  /**
   * The base fields marked `skip_serializing` (every base key except
   * `object`, `type` and `archived`) never appear in a serialised block.
   */
  lemma SkippedBaseKeysAbsent(b: Block, k: string)
    requires BaseKey(k) && k != "object" && k != "type" && k != "archived"
    ensures !Emits(BlockJson(b), k)
  {
    var head, ps := HeadMembers(b), PayloadMembers(b);
    assert BlockJson(b).members == head + ps;
    assert forall m: (string, Json) :: m in head ==> m.0 == "object" || m.0 == "type" || m.0 == "archived";
    assert forall m: (string, Json) :: m in head + ps ==> m.0 != k;
  }

  /** `archived` appears exactly when it is true; `object` and `type` always appear. */
  lemma HeadKeysEmitted(b: Block)
    ensures Emits(BlockJson(b), "archived") <==> b.archived
    ensures Emits(BlockJson(b), "object") && Emits(BlockJson(b), "type")
  {
    var head, ps := HeadMembers(b), PayloadMembers(b);
    assert BlockJson(b).members == head + ps;
    assert ("object", JStr(b.objectName)) in head + ps;
    assert ("type", JStr(b.typeName)) in head + ps;
    if b.archived {
      assert ("archived", JBool(true)) in head + ps;
    } else {
      assert forall m: (string, Json) :: m in head + ps ==> m.0 != "archived";
    }
  }

  /**
   * A serialised block has `object`, `type`, `archived` when true, and one
   * member per present payload: absent payloads are omitted.
   */
  lemma BlockJsonSize(b: Block)
    ensures |BlockJson(b).members| == 2 + (if b.archived then 1 else 0) + PayloadCount(b)
  {
    assert BlockJson(b) == JObj(HeadMembers(b) + PayloadMembers(b));
  }

  /**
   * A block built by a `Block::*` constructor serialises to three members:
   * `"object":"block"`, its type tag, and its one payload.
   */
  lemma ConstructedJson(b: Block, parentType: ParentType, parentId: string, tag: string)
    requires Constructed(b, parentType, parentId, tag)
    ensures |BlockJson(b).members| == 3
    ensures BlockJson(b).members[0] == ("object", JStr("block"))
    ensures BlockJson(b).members[1] == ("type", JStr(tag))
    ensures !BaseKey(BlockJson(b).members[2].0)
  {
    BlockJsonSize(b);
    assert BlockJson(b).members == HeadMembers(b) + PayloadMembers(b);
    assert HeadMembers(b) == [("object", JStr("block")), ("type", JStr(tag))];
    assert BlockJson(b).members[2] == PayloadMembers(b)[0];
  }

  // ---------------------------------------------------------------- request and response

  /** The body of an append request: the children, in order. */
  datatype BlockBody = BlockBody(children: seq<Block>)

  function BlockBodyJson(body: BlockBody): (j: Json)
    ensures j.JObj? && |j.members| == 1 && j.members[0].0 == "children"
    ensures j.members[0].1.JArr? && |j.members[0].1.items| == |body.children|
    ensures forall i :: 0 <= i < |body.children| ==> j.members[0].1.items[i] == BlockJson(body.children[i])
  {
    JObj(Field("children", JArr(seq(|body.children|, i requires 0 <= i < |body.children| => BlockJson(body.children[i])))))
  }

  /** A block-list response; `status`, `code` and `message` are decoded but never serialised. */
  datatype BlockResponse = BlockResponse(objectName: string, status: uint32, code: string, message: string, results: seq<Block>)

  function BlockResponseJson(r: BlockResponse): (j: Json)
    ensures j.JObj? && |j.members| == 2
    ensures j.members[0] == ("object", JStr(r.objectName)) && j.members[1].0 == "results"
  {
    JObj(Field("object", JStr(r.objectName))
      + Field("results", JArr(seq(|r.results|, i requires 0 <= i < |r.results| => BlockJson(r.results[i])))))
  }


  /** `status`, `code` and `message` do not reach the serialised response. */
  lemma ResponseIgnoresStatus(r: BlockResponse, status: uint32, code: string, message: string)
    ensures BlockResponseJson(r.(status := status, code := code, message := message)) == BlockResponseJson(r)
    ensures !Emits(BlockResponseJson(r), "status") && !Emits(BlockResponseJson(r), "code")
    ensures !Emits(BlockResponseJson(r), "message")
  {
  }

  /** `Block::default()`: kind "block", a block-typed parent without ids, no type tag, no payload. */
  lemma DefaultBlockIsEmpty()
    ensures DefaultBlock.objectName == "block" && DefaultBlock.typeName == ""
    ensures DefaultBlock.parent.typeName == ParentType.Block
    ensures forall t: ParentType :: IdFor(DefaultBlock.parent, t).None?
    ensures !DefaultBlock.archived && PayloadCount(DefaultBlock) == 0
    ensures BlockJson(DefaultBlock) == JObj([("object", JStr("block")), ("type", JStr(""))])
  {
    assert BlockJson(DefaultBlock).members == HeadMembers(DefaultBlock) + PayloadMembers(DefaultBlock);
  }
}
