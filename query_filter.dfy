/**
 * The database query filter of the Notion client: thirteen predicate records,
 * the recursive `FilterItem` tree that combines them, the `QueryFilter`
 * builder that owns a tree and a pagination cursor, and the documented
 * pagination loop that drives it.
 */
module QueryFilter {
  import opened Wrappers
  import opened Json

  /** `CheckboxFilterItem`: every field optional, skipped when `None`. */
  datatype CheckboxFilterItem = CheckboxFilterItem(equals: Option<bool>, doesNotEqual: Option<bool>)
  {
    /** The derived default: every field `None`. */
    static const Default: CheckboxFilterItem := CheckboxFilterItem(None, None)

    /** The serialised members, in field order. */
    function Members(): seq<(string, Json)>
    {
      OptBool("equals", equals)
      + OptBool("does_not_equal", doesNotEqual)
    }

    function ToJson(): (j: Json)
      ensures j.JObj? && Textual(j)
    {
      JObj(Members())
    }

    /** The `CheckboxFilterItem::<operator>` constructors: only the operator's own field is set. */
    static function Of(op: CheckboxOp): (r: CheckboxFilterItem)
      ensures r.Members() == [op.Member()]
    {
      match op
      case Equals => Default.(equals := Some(true))
      case DoesNotEqual => Default.(doesNotEqual := Some(true))
    }

    /**
     * The operator's field set on this record, every other field kept: the
     * `&mut self` setters of the older filter builder.
     */
    function With(op: CheckboxOp): CheckboxFilterItem
    {
      match op
      case Equals => this.(equals := Some(true))
      case DoesNotEqual => this.(doesNotEqual := Some(true))
    }
  }

  /** One case per `CheckboxFilterItem` constructor. */
  datatype CheckboxOp =
    | Equals
    | DoesNotEqual
  {
    /** The key this operator sets and the JSON value stored under it. */
    function Member(): (string, Json)
    {
      match this
      case Equals => ("equals", JBool(true))
      case DoesNotEqual => ("does_not_equal", JBool(true))
    }
  }

  /** `DateFilterItem`: every field optional, skipped when `None`. */
  datatype DateFilterItem = DateFilterItem(after: Option<string>, before: Option<string>, equals: Option<string>, isEmpty: Option<bool>, isNotEmpty: Option<bool>, onOrAfter: Option<string>, onOrBefore: Option<string>)
  {
    /** The derived default: every field `None`. */
    static const Default: DateFilterItem := DateFilterItem(None, None, None, None, None, None, None)

    /** The serialised members, in field order. */
    function Members(): seq<(string, Json)>
    {
      OptStr("after", after)
      + OptStr("before", before)
      + OptStr("equals", equals)
      + OptBool("is_empty", isEmpty)
      + OptBool("is_not_empty", isNotEmpty)
      + OptStr("on_or_after", onOrAfter)
      + OptStr("on_or_before", onOrBefore)
    }

    function ToJson(): (j: Json)
      ensures j.JObj? && Textual(j)
    {
      JObj(Members())
    }

    /** The `DateFilterItem::<operator>` constructors: only the operator's own field is set. */
    static function Of(op: DateOp): (r: DateFilterItem)
      ensures r.Members() == [op.Member()]
    {
      match op
      case Equals(value) => Default.(equals := Some(value))
      case After(value) => Default.(after := Some(value))
      case Before(value) => Default.(before := Some(value))
      case IsEmpty => Default.(isEmpty := Some(true))
      case IsNotEmpty => Default.(isNotEmpty := Some(true))
      case OnOrAfter(value) => Default.(onOrAfter := Some(value))
      case OnOrBefore(value) => Default.(onOrBefore := Some(value))
    }

    /**
     * The operator's field set on this record, every other field kept: the
     * `&mut self` setters of the older filter builder.
     */
    function With(op: DateOp): DateFilterItem
    {
      match op
      case Equals(value) => this.(equals := Some(value))
      case After(value) => this.(after := Some(value))
      case Before(value) => this.(before := Some(value))
      case IsEmpty => this.(isEmpty := Some(true))
      case IsNotEmpty => this.(isNotEmpty := Some(true))
      case OnOrAfter(value) => this.(onOrAfter := Some(value))
      case OnOrBefore(value) => this.(onOrBefore := Some(value))
    }
  }

  /** One case per `DateFilterItem` constructor. */
  datatype DateOp =
    | Equals(value: string)
    | After(value: string)
    | Before(value: string)
    | IsEmpty
    | IsNotEmpty
    | OnOrAfter(value: string)
    | OnOrBefore(value: string)
  {
    /** The key this operator sets and the JSON value stored under it. */
    function Member(): (string, Json)
    {
      match this
      case Equals(value) => ("equals", JStr(value))
      case After(value) => ("after", JStr(value))
      case Before(value) => ("before", JStr(value))
      case IsEmpty => ("is_empty", JBool(true))
      case IsNotEmpty => ("is_not_empty", JBool(true))
      case OnOrAfter(value) => ("on_or_after", JStr(value))
      case OnOrBefore(value) => ("on_or_before", JStr(value))
    }
  }

  /** `FilesFilterItem`: every field optional, skipped when `None`. */
  datatype FilesFilterItem = FilesFilterItem(isEmpty: Option<bool>, isNotEmpty: Option<bool>)
  {
    /** The derived default: every field `None`. */
    static const Default: FilesFilterItem := FilesFilterItem(None, None)

    /** The serialised members, in field order. */
    function Members(): seq<(string, Json)>
    {
      OptBool("is_empty", isEmpty)
      + OptBool("is_not_empty", isNotEmpty)
    }

    function ToJson(): (j: Json)
      ensures j.JObj? && Textual(j)
    {
      JObj(Members())
    }

    /** The `FilesFilterItem::<operator>` constructors: only the operator's own field is set. */
    static function Of(op: FilesOp): (r: FilesFilterItem)
      ensures r.Members() == [op.Member()]
    {
      match op
      case IsEmpty => Default.(isEmpty := Some(true))
      case IsNotEmpty => Default.(isNotEmpty := Some(true))
    }

    /**
     * The operator's field set on this record, every other field kept: the
     * `&mut self` setters of the older filter builder.
     */
    function With(op: FilesOp): FilesFilterItem
    {
      match op
      case IsEmpty => this.(isEmpty := Some(true))
      case IsNotEmpty => this.(isNotEmpty := Some(true))
    }
  }

  /** One case per `FilesFilterItem` constructor. */
  datatype FilesOp =
    | IsEmpty
    | IsNotEmpty
  {
    /** The key this operator sets and the JSON value stored under it. */
    function Member(): (string, Json)
    {
      match this
      case IsEmpty => ("is_empty", JBool(true))
      case IsNotEmpty => ("is_not_empty", JBool(true))
    }
  }

  /** `FormulaFilterItem`: every field optional, skipped when `None`. */
  datatype FormulaFilterItem = FormulaFilterItem(checkbox: Option<CheckboxFilterItem>, date: Option<DateFilterItem>, number: Option<NumberFilterItem>, stringItem: Option<RichTextFilterItem>)
  {
    /** The derived default: every field `None`. */
    static const Default: FormulaFilterItem := FormulaFilterItem(None, None, None, None)

    /** The serialised members, in field order. */
    function Members(): seq<(string, Json)>
    {
      (if checkbox.Some? then [("checkbox", checkbox.value.ToJson())] else [])
      + (if date.Some? then [("date", date.value.ToJson())] else [])
      + (if number.Some? then [("number", number.value.ToJson())] else [])
      + (if stringItem.Some? then [("string", stringItem.value.ToJson())] else [])
    }

    function ToJson(): (j: Json)
      ensures j.JObj? && Textual(j)
    {
      JObj(Members())
    }

    /** The `FormulaFilterItem::<operator>` constructors: only the operator's own field is set. */
    static function Of(op: FormulaOp): (r: FormulaFilterItem)
      ensures r.Members() == [op.Member()]
    {
      match op
      case Checkbox(checkbox) => Default.(checkbox := Some(checkbox))
      case Date(date) => Default.(date := Some(date))
      case Number(number) => Default.(number := Some(number))
      case String(stringItem) => Default.(stringItem := Some(stringItem))
    }

    /**
     * The operator's field set on this record, every other field kept: the
     * `&mut self` setters of the older filter builder.
     */
    function With(op: FormulaOp): FormulaFilterItem
    {
      match op
      case Checkbox(checkbox) => this.(checkbox := Some(checkbox))
      case Date(date) => this.(date := Some(date))
      case Number(number) => this.(number := Some(number))
      case String(stringItem) => this.(stringItem := Some(stringItem))
    }
  }

  /** One case per `FormulaFilterItem` constructor. */
  datatype FormulaOp =
    | Checkbox(checkbox: CheckboxFilterItem)
    | Date(date: DateFilterItem)
    | Number(number: NumberFilterItem)
    | String(stringItem: RichTextFilterItem)
  {
    /** The key this operator sets and the JSON value stored under it. */
    function Member(): (string, Json)
    {
      match this
      case Checkbox(checkbox) => ("checkbox", checkbox.ToJson())
      case Date(date) => ("date", date.ToJson())
      case Number(number) => ("number", number.ToJson())
      case String(stringItem) => ("string", stringItem.ToJson())
    }
  }

  /** `MultiSelectFilterItem`: every field optional, skipped when `None`. */
  datatype MultiSelectFilterItem = MultiSelectFilterItem(contains: Option<string>, doesNotContain: Option<string>, equals: Option<bool>, doesNotEqual: Option<bool>)
  {
    /** The derived default: every field `None`. */
    static const Default: MultiSelectFilterItem := MultiSelectFilterItem(None, None, None, None)

    /** The serialised members, in field order. */
    function Members(): seq<(string, Json)>
    {
      OptStr("contains", contains)
      + OptStr("does_not_contain", doesNotContain)
      + OptBool("equals", equals)
      + OptBool("does_not_equal", doesNotEqual)
    }

    function ToJson(): (j: Json)
      ensures j.JObj? && Textual(j)
    {
      JObj(Members())
    }

    /** The `MultiSelectFilterItem::<operator>` constructors: only the operator's own field is set. */
    static function Of(op: MultiSelectOp): (r: MultiSelectFilterItem)
      ensures r.Members() == [op.Member()]
    {
      match op
      case Contains(value) => Default.(contains := Some(value))
      case DoesNotContain(value) => Default.(doesNotContain := Some(value))
      case Equals => Default.(equals := Some(true))
      case DoesNotEqual => Default.(doesNotEqual := Some(true))
    }

    /**
     * The operator's field set on this record, every other field kept: the
     * `&mut self` setters of the older filter builder.
     */
    function With(op: MultiSelectOp): MultiSelectFilterItem
    {
      match op
      case Contains(value) => this.(contains := Some(value))
      case DoesNotContain(value) => this.(doesNotContain := Some(value))
      case Equals => this.(equals := Some(true))
      case DoesNotEqual => this.(doesNotEqual := Some(true))
    }
  }

  /** One case per `MultiSelectFilterItem` constructor. */
  datatype MultiSelectOp =
    | Contains(value: string)
    | DoesNotContain(value: string)
    | Equals
    | DoesNotEqual
  {
    /** The key this operator sets and the JSON value stored under it. */
    function Member(): (string, Json)
    {
      match this
      case Contains(value) => ("contains", JStr(value))
      case DoesNotContain(value) => ("does_not_contain", JStr(value))
      case Equals => ("equals", JBool(true))
      case DoesNotEqual => ("does_not_equal", JBool(true))
    }
  }

  /** `NumberFilterItem`: every field optional, skipped when `None`. */
  datatype NumberFilterItem = NumberFilterItem(equals: Option<uint128>, doesNotEqual: Option<uint128>, greaterThan: Option<uint128>, lessThan: Option<uint128>, greaterThanOrEqualTo: Option<uint128>, lessThanOrEqualTo: Option<uint128>, isEmpty: Option<bool>, isNotEmpty: Option<bool>)
  {
    /** The derived default: every field `None`. */
    static const Default: NumberFilterItem := NumberFilterItem(None, None, None, None, None, None, None, None)

    /** The serialised members, in field order. */
    function Members(): seq<(string, Json)>
    {
      OptNum("equals", equals)
      + OptNum("does_not_equal", doesNotEqual)
      + OptNum("greater_than", greaterThan)
      + OptNum("less_than", lessThan)
      + OptNum("greater_than_or_equal_to", greaterThanOrEqualTo)
      + OptNum("less_than_or_equal_to", lessThanOrEqualTo)
      + OptBool("is_empty", isEmpty)
      + OptBool("is_not_empty", isNotEmpty)
    }

    function ToJson(): (j: Json)
      ensures j.JObj? && Textual(j)
    {
      JObj(Members())
    }

    /** The `NumberFilterItem::<operator>` constructors: only the operator's own field is set. */
    static function Of(op: NumberOp): (r: NumberFilterItem)
      ensures r.Members() == [op.Member()]
    {
      match op
      case Equals(value) => Default.(equals := Some(value))
      case DoesNotEqual(value) => Default.(doesNotEqual := Some(value))
      case GreaterThan(value) => Default.(greaterThan := Some(value))
      case LessThan(value) => Default.(lessThan := Some(value))
      case GreaterThanOrEqualTo(value) => Default.(greaterThanOrEqualTo := Some(value))
      case LessThanOrEqualTo(value) => Default.(lessThanOrEqualTo := Some(value))
      case IsEmpty => Default.(isEmpty := Some(true))
      case IsNotEmpty => Default.(isNotEmpty := Some(true))
    }

    /**
     * The operator's field set on this record, every other field kept: the
     * `&mut self` setters of the older filter builder.
     */
    function With(op: NumberOp): NumberFilterItem
    {
      match op
      case Equals(value) => this.(equals := Some(value))
      case DoesNotEqual(value) => this.(doesNotEqual := Some(value))
      case GreaterThan(value) => this.(greaterThan := Some(value))
      case LessThan(value) => this.(lessThan := Some(value))
      case GreaterThanOrEqualTo(value) => this.(greaterThanOrEqualTo := Some(value))
      case LessThanOrEqualTo(value) => this.(lessThanOrEqualTo := Some(value))
      case IsEmpty => this.(isEmpty := Some(true))
      case IsNotEmpty => this.(isNotEmpty := Some(true))
    }
  }

  /** One case per `NumberFilterItem` constructor. */
  datatype NumberOp =
    | Equals(value: uint128)
    | DoesNotEqual(value: uint128)
    | GreaterThan(value: uint128)
    | LessThan(value: uint128)
    | GreaterThanOrEqualTo(value: uint128)
    | LessThanOrEqualTo(value: uint128)
    | IsEmpty
    | IsNotEmpty
  {
    /** The key this operator sets and the JSON value stored under it. */
    function Member(): (string, Json)
    {
      match this
      case Equals(value) => ("equals", JNum(value))
      case DoesNotEqual(value) => ("does_not_equal", JNum(value))
      case GreaterThan(value) => ("greater_than", JNum(value))
      case LessThan(value) => ("less_than", JNum(value))
      case GreaterThanOrEqualTo(value) => ("greater_than_or_equal_to", JNum(value))
      case LessThanOrEqualTo(value) => ("less_than_or_equal_to", JNum(value))
      case IsEmpty => ("is_empty", JBool(true))
      case IsNotEmpty => ("is_not_empty", JBool(true))
    }
  }

  /** `PeopleFilterItem`: every field optional, skipped when `None`. */
  datatype PeopleFilterItem = PeopleFilterItem(contains: Option<string>, doesNotContain: Option<string>, isEmpty: Option<bool>, isNotEmpty: Option<bool>)
  {
    /** The derived default: every field `None`. */
    static const Default: PeopleFilterItem := PeopleFilterItem(None, None, None, None)

    /** The serialised members, in field order. */
    function Members(): seq<(string, Json)>
    {
      OptStr("contains", contains)
      + OptStr("does_not_contain", doesNotContain)
      + OptBool("is_empty", isEmpty)
      + OptBool("is_not_empty", isNotEmpty)
    }

    function ToJson(): (j: Json)
      ensures j.JObj? && Textual(j)
    {
      JObj(Members())
    }

    /** The `PeopleFilterItem::<operator>` constructors: only the operator's own field is set. */
    static function Of(op: PeopleOp): (r: PeopleFilterItem)
      ensures r.Members() == [op.Member()]
    {
      match op
      case Contains(value) => Default.(contains := Some(value))
      case DoesNotContain(value) => Default.(doesNotContain := Some(value))
      case IsEmpty => Default.(isEmpty := Some(true))
      case IsNotEmpty => Default.(isNotEmpty := Some(true))
    }

    /**
     * The operator's field set on this record, every other field kept: the
     * `&mut self` setters of the older filter builder.
     */
    function With(op: PeopleOp): PeopleFilterItem
    {
      match op
      case Contains(value) => this.(contains := Some(value))
      case DoesNotContain(value) => this.(doesNotContain := Some(value))
      case IsEmpty => this.(isEmpty := Some(true))
      case IsNotEmpty => this.(isNotEmpty := Some(true))
    }
  }

  /** One case per `PeopleFilterItem` constructor. */
  datatype PeopleOp =
    | Contains(value: string)
    | DoesNotContain(value: string)
    | IsEmpty
    | IsNotEmpty
  {
    /** The key this operator sets and the JSON value stored under it. */
    function Member(): (string, Json)
    {
      match this
      case Contains(value) => ("contains", JStr(value))
      case DoesNotContain(value) => ("does_not_contain", JStr(value))
      case IsEmpty => ("is_empty", JBool(true))
      case IsNotEmpty => ("is_not_empty", JBool(true))
    }
  }

  /** `RelationFilterItem`: every field optional, skipped when `None`. */
  datatype RelationFilterItem = RelationFilterItem(contains: Option<string>, doesNotContain: Option<string>, isEmpty: Option<bool>, isNotEmpty: Option<bool>)
  {
    /** The derived default: every field `None`. */
    static const Default: RelationFilterItem := RelationFilterItem(None, None, None, None)

    /** The serialised members, in field order. */
    function Members(): seq<(string, Json)>
    {
      OptStr("contains", contains)
      + OptStr("does_not_contain", doesNotContain)
      + OptBool("is_empty", isEmpty)
      + OptBool("is_not_empty", isNotEmpty)
    }

    function ToJson(): (j: Json)
      ensures j.JObj? && Textual(j)
    {
      JObj(Members())
    }

    /** The `RelationFilterItem::<operator>` constructors: only the operator's own field is set. */
    static function Of(op: RelationOp): (r: RelationFilterItem)
      ensures r.Members() == [op.Member()]
    {
      match op
      case Contains(value) => Default.(contains := Some(value))
      case DoesNotContain(value) => Default.(doesNotContain := Some(value))
      case IsEmpty => Default.(isEmpty := Some(true))
      case IsNotEmpty => Default.(isNotEmpty := Some(true))
    }

    /**
     * The operator's field set on this record, every other field kept: the
     * `&mut self` setters of the older filter builder.
     */
    function With(op: RelationOp): RelationFilterItem
    {
      match op
      case Contains(value) => this.(contains := Some(value))
      case DoesNotContain(value) => this.(doesNotContain := Some(value))
      case IsEmpty => this.(isEmpty := Some(true))
      case IsNotEmpty => this.(isNotEmpty := Some(true))
    }
  }

  /** One case per `RelationFilterItem` constructor. */
  datatype RelationOp =
    | Contains(value: string)
    | DoesNotContain(value: string)
    | IsEmpty
    | IsNotEmpty
  {
    /** The key this operator sets and the JSON value stored under it. */
    function Member(): (string, Json)
    {
      match this
      case Contains(value) => ("contains", JStr(value))
      case DoesNotContain(value) => ("does_not_contain", JStr(value))
      case IsEmpty => ("is_empty", JBool(true))
      case IsNotEmpty => ("is_not_empty", JBool(true))
    }
  }

  /** `RichTextFilterItem`: every field optional, skipped when `None`. */
  datatype RichTextFilterItem = RichTextFilterItem(contains: Option<string>, doesNotContain: Option<string>, equals: Option<string>, doesNotEqual: Option<string>, startsWith: Option<string>, endsWith: Option<string>, isEmpty: Option<bool>, isNotEmpty: Option<bool>)
  {
    /** The derived default: every field `None`. */
    static const Default: RichTextFilterItem := RichTextFilterItem(None, None, None, None, None, None, None, None)

    /** The serialised members, in field order. */
    function Members(): seq<(string, Json)>
    {
      OptStr("contains", contains)
      + OptStr("does_not_contain", doesNotContain)
      + OptStr("equals", equals)
      + OptStr("does_not_equal", doesNotEqual)
      + OptStr("starts_with", startsWith)
      + OptStr("ends_with", endsWith)
      + OptBool("is_empty", isEmpty)
      + OptBool("is_not_empty", isNotEmpty)
    }

    function ToJson(): (j: Json)
      ensures j.JObj? && Textual(j)
    {
      JObj(Members())
    }

    /** The `RichTextFilterItem::<operator>` constructors: only the operator's own field is set. */
    static function Of(op: RichTextOp): (r: RichTextFilterItem)
      ensures r.Members() == [op.Member()]
    {
      match op
      case Contains(value) => Default.(contains := Some(value))
      case DoesNotContain(value) => Default.(doesNotContain := Some(value))
      case Equals(value) => Default.(equals := Some(value))
      case DoesNotEqual(value) => Default.(doesNotEqual := Some(value))
      case StartsWith(value) => Default.(startsWith := Some(value))
      case EndsWith(value) => Default.(endsWith := Some(value))
      case IsEmpty => Default.(isEmpty := Some(true))
      case IsNotEmpty => Default.(isNotEmpty := Some(true))
    }

    /**
     * The operator's field set on this record, every other field kept: the
     * `&mut self` setters of the older filter builder.
     */
    function With(op: RichTextOp): RichTextFilterItem
    {
      match op
      case Contains(value) => this.(contains := Some(value))
      case DoesNotContain(value) => this.(doesNotContain := Some(value))
      case Equals(value) => this.(equals := Some(value))
      case DoesNotEqual(value) => this.(doesNotEqual := Some(value))
      case StartsWith(value) => this.(startsWith := Some(value))
      case EndsWith(value) => this.(endsWith := Some(value))
      case IsEmpty => this.(isEmpty := Some(true))
      case IsNotEmpty => this.(isNotEmpty := Some(true))
    }
  }

  /** One case per `RichTextFilterItem` constructor. */
  datatype RichTextOp =
    | Contains(value: string)
    | DoesNotContain(value: string)
    | Equals(value: string)
    | DoesNotEqual(value: string)
    | StartsWith(value: string)
    | EndsWith(value: string)
    | IsEmpty
    | IsNotEmpty
  {
    /** The key this operator sets and the JSON value stored under it. */
    function Member(): (string, Json)
    {
      match this
      case Contains(value) => ("contains", JStr(value))
      case DoesNotContain(value) => ("does_not_contain", JStr(value))
      case Equals(value) => ("equals", JStr(value))
      case DoesNotEqual(value) => ("does_not_equal", JStr(value))
      case StartsWith(value) => ("starts_with", JStr(value))
      case EndsWith(value) => ("ends_with", JStr(value))
      case IsEmpty => ("is_empty", JBool(true))
      case IsNotEmpty => ("is_not_empty", JBool(true))
    }
  }

  /** `SelectFilterItem`: every field optional, skipped when `None`. */
  datatype SelectFilterItem = SelectFilterItem(equals: Option<string>, doesNotEquals: Option<string>, isEmpty: Option<bool>, isNotEmpty: Option<bool>)
  {
    /** The derived default: every field `None`. */
    static const Default: SelectFilterItem := SelectFilterItem(None, None, None, None)

    /** The serialised members, in field order. */
    function Members(): seq<(string, Json)>
    {
      OptStr("equals", equals)
      + OptStr("does_not_equals", doesNotEquals)
      + OptBool("is_empty", isEmpty)
      + OptBool("is_not_empty", isNotEmpty)
    }

    function ToJson(): (j: Json)
      ensures j.JObj? && Textual(j)
    {
      JObj(Members())
    }

    /** The `SelectFilterItem::<operator>` constructors: only the operator's own field is set. */
    static function Of(op: SelectOp): (r: SelectFilterItem)
      ensures r.Members() == [op.Member()]
    {
      match op
      case Equals(value) => Default.(equals := Some(value))
      case DoesNotEquals(value) => Default.(doesNotEquals := Some(value))
      case IsEmpty => Default.(isEmpty := Some(true))
      case IsNotEmpty => Default.(isNotEmpty := Some(true))
    }

    /**
     * The operator's field set on this record, every other field kept: the
     * `&mut self` setters of the older filter builder.
     */
    function With(op: SelectOp): SelectFilterItem
    {
      match op
      case Equals(value) => this.(equals := Some(value))
      case DoesNotEquals(value) => this.(doesNotEquals := Some(value))
      case IsEmpty => this.(isEmpty := Some(true))
      case IsNotEmpty => this.(isNotEmpty := Some(true))
    }
  }

  /** One case per `SelectFilterItem` constructor. */
  datatype SelectOp =
    | Equals(value: string)
    | DoesNotEquals(value: string)
    | IsEmpty
    | IsNotEmpty
  {
    /** The key this operator sets and the JSON value stored under it. */
    function Member(): (string, Json)
    {
      match this
      case Equals(value) => ("equals", JStr(value))
      case DoesNotEquals(value) => ("does_not_equals", JStr(value))
      case IsEmpty => ("is_empty", JBool(true))
      case IsNotEmpty => ("is_not_empty", JBool(true))
    }
  }

  /** `StatusFilterItem`: every field optional, skipped when `None`. */
  datatype StatusFilterItem = StatusFilterItem(equals: Option<string>, doesNotEquals: Option<string>, isEmpty: Option<bool>, isNotEmpty: Option<bool>)
  {
    /** The derived default: every field `None`. */
    static const Default: StatusFilterItem := StatusFilterItem(None, None, None, None)

    /** The serialised members, in field order. */
    function Members(): seq<(string, Json)>
    {
      OptStr("equals", equals)
      + OptStr("does_not_equals", doesNotEquals)
      + OptBool("is_empty", isEmpty)
      + OptBool("is_not_empty", isNotEmpty)
    }

    function ToJson(): (j: Json)
      ensures j.JObj? && Textual(j)
    {
      JObj(Members())
    }

    /** The `StatusFilterItem::<operator>` constructors: only the operator's own field is set. */
    static function Of(op: StatusOp): (r: StatusFilterItem)
      ensures r.Members() == [op.Member()]
    {
      match op
      case Equals(value) => Default.(equals := Some(value))
      case DoesNotEquals(value) => Default.(doesNotEquals := Some(value))
      case IsEmpty => Default.(isEmpty := Some(true))
      case IsNotEmpty => Default.(isNotEmpty := Some(true))
    }

    /**
     * The operator's field set on this record, every other field kept: the
     * `&mut self` setters of the older filter builder.
     */
    function With(op: StatusOp): StatusFilterItem
    {
      match op
      case Equals(value) => this.(equals := Some(value))
      case DoesNotEquals(value) => this.(doesNotEquals := Some(value))
      case IsEmpty => this.(isEmpty := Some(true))
      case IsNotEmpty => this.(isNotEmpty := Some(true))
    }
  }

  /** One case per `StatusFilterItem` constructor. */
  datatype StatusOp =
    | Equals(value: string)
    | DoesNotEquals(value: string)
    | IsEmpty
    | IsNotEmpty
  {
    /** The key this operator sets and the JSON value stored under it. */
    function Member(): (string, Json)
    {
      match this
      case Equals(value) => ("equals", JStr(value))
      case DoesNotEquals(value) => ("does_not_equals", JStr(value))
      case IsEmpty => ("is_empty", JBool(true))
      case IsNotEmpty => ("is_not_empty", JBool(true))
    }
  }

  /** `TimestampFilterItem`: every field optional, skipped when `None`. */
  datatype TimestampFilterItem = TimestampFilterItem(timestamp: Option<string>, createdTime: Option<DateFilterItem>, lastEditedTime: Option<DateFilterItem>)
  {
    /** The derived default: every field `None`. */
    static const Default: TimestampFilterItem := TimestampFilterItem(None, None, None)

    /** The serialised members, in field order. */
    function Members(): seq<(string, Json)>
    {
      OptStr("timestamp", timestamp)
      + (if createdTime.Some? then [("created_time", createdTime.value.ToJson())] else [])
      + (if lastEditedTime.Some? then [("last_edited_time", lastEditedTime.value.ToJson())] else [])
    }

    function ToJson(): (j: Json)
      ensures j.JObj? && Textual(j)
    {
      JObj(Members())
    }

    /** The `TimestampFilterItem::<operator>` constructors: only the operator's own field is set. */
    static function Of(op: TimestampOp): (r: TimestampFilterItem)
      ensures r.Members() == [op.Member()]
    {
      match op
      case Timestamp(value) => Default.(timestamp := Some(value))
      case CreatedTime(createdTime) => Default.(createdTime := Some(createdTime))
      case LastEditedTime(lastEditedTime) => Default.(lastEditedTime := Some(lastEditedTime))
    }

    /**
     * The operator's field set on this record, every other field kept: the
     * `&mut self` setters of the older filter builder.
     */
    function With(op: TimestampOp): TimestampFilterItem
    {
      match op
      case Timestamp(value) => this.(timestamp := Some(value))
      case CreatedTime(createdTime) => this.(createdTime := Some(createdTime))
      case LastEditedTime(lastEditedTime) => this.(lastEditedTime := Some(lastEditedTime))
    }
  }

  /** One case per `TimestampFilterItem` constructor. */
  datatype TimestampOp =
    | Timestamp(value: string)
    | CreatedTime(createdTime: DateFilterItem)
    | LastEditedTime(lastEditedTime: DateFilterItem)
  {
    /** The key this operator sets and the JSON value stored under it. */
    function Member(): (string, Json)
    {
      match this
      case Timestamp(value) => ("timestamp", JStr(value))
      case CreatedTime(createdTime) => ("created_time", createdTime.ToJson())
      case LastEditedTime(lastEditedTime) => ("last_edited_time", lastEditedTime.ToJson())
    }
  }

  /** `IdFilterItem`: every field optional, skipped when `None`. */
  datatype IdFilterItem = IdFilterItem(equals: Option<uint128>, doesNotEqual: Option<uint128>, greaterThan: Option<uint128>, lessThan: Option<uint128>, greaterThanOrEqualTo: Option<uint128>, lessThanOrEqualTo: Option<uint128>)
  {
    /** The derived default: every field `None`. */
    static const Default: IdFilterItem := IdFilterItem(None, None, None, None, None, None)

    /** The serialised members, in field order. */
    function Members(): seq<(string, Json)>
    {
      OptNum("equals", equals)
      + OptNum("does_not_equal", doesNotEqual)
      + OptNum("greater_than", greaterThan)
      + OptNum("less_than", lessThan)
      + OptNum("greater_than_or_equal_to", greaterThanOrEqualTo)
      + OptNum("less_than_or_equal_to", lessThanOrEqualTo)
    }

    function ToJson(): (j: Json)
      ensures j.JObj? && Textual(j)
    {
      JObj(Members())
    }

    /** The `IdFilterItem::<operator>` constructors: only the operator's own field is set. */
    static function Of(op: IdOp): (r: IdFilterItem)
      ensures r.Members() == [op.Member()]
    {
      match op
      case Equals(value) => Default.(equals := Some(value))
      case DoesNotEqual(value) => Default.(doesNotEqual := Some(value))
      case GreaterThan(value) => Default.(greaterThan := Some(value))
      case LessThan(value) => Default.(lessThan := Some(value))
      case GreaterThanOrEqualTo(value) => Default.(greaterThanOrEqualTo := Some(value))
      case LessThanOrEqualTo(value) => Default.(lessThanOrEqualTo := Some(value))
    }

    /**
     * The operator's field set on this record, every other field kept: the
     * `&mut self` setters of the older filter builder.
     */
    function With(op: IdOp): IdFilterItem
    {
      match op
      case Equals(value) => this.(equals := Some(value))
      case DoesNotEqual(value) => this.(doesNotEqual := Some(value))
      case GreaterThan(value) => this.(greaterThan := Some(value))
      case LessThan(value) => this.(lessThan := Some(value))
      case GreaterThanOrEqualTo(value) => this.(greaterThanOrEqualTo := Some(value))
      case LessThanOrEqualTo(value) => this.(lessThanOrEqualTo := Some(value))
    }
  }

  /** One case per `IdFilterItem` constructor. */
  datatype IdOp =
    | Equals(value: uint128)
    | DoesNotEqual(value: uint128)
    | GreaterThan(value: uint128)
    | LessThan(value: uint128)
    | GreaterThanOrEqualTo(value: uint128)
    | LessThanOrEqualTo(value: uint128)
  {
    /** The key this operator sets and the JSON value stored under it. */
    function Member(): (string, Json)
    {
      match this
      case Equals(value) => ("equals", JNum(value))
      case DoesNotEqual(value) => ("does_not_equal", JNum(value))
      case GreaterThan(value) => ("greater_than", JNum(value))
      case LessThan(value) => ("less_than", JNum(value))
      case GreaterThanOrEqualTo(value) => ("greater_than_or_equal_to", JNum(value))
      case LessThanOrEqualTo(value) => ("less_than_or_equal_to", JNum(value))
    }
  }

  /**
   * An optional list of child filter nodes (`Option<Vec<FilterItem>>`),
   * spelled out so that termination can see the nesting.
   */
  datatype Children = NoChildren | Children(items: seq<FilterItem>)
  {
    /** The serialised list: one object per child, in order. */
    function ToJson(): (j: Json)
      ensures j.JArr?
      ensures |j.items| == |Items()|
      ensures forall i :: 0 <= i < |Items()| ==> j.items[i] == Items()[i].ToJson()
      decreases this, 0
    {
      match this
      case NoChildren => JArr([])
      case Children(items) => JArr(seq(|items|, i requires 0 <= i < |items| => items[i].ToJson()))
    }

    /** The member under `key`: present exactly when the list is, even when it is empty. */
    function Member(key: string): (ms: seq<(string, Json)>)
      ensures forall m :: m in ms ==> m.0 == key
      ensures ms == if Children? then [(key, ToJson())] else []
      decreases this, 1
    {
      if Children? then [(key, ToJson())] else []
    }

    /** The children, none when absent. */
    function Items(): seq<FilterItem>
    {
      if Children? then items else []
    }
  }

  /**
   * One node of a filter tree: a property name, optional `and`/`or` child
   * lists and thirteen optional predicate records.
   */
  datatype FilterItem = FilterItem(
    property: string,
    andItems: Children,
    orItems: Children,
    checkbox: Option<CheckboxFilterItem>,
    date: Option<DateFilterItem>,
    files: Option<FilesFilterItem>,
    formula: Option<FormulaFilterItem>,
    multiSelect: Option<MultiSelectFilterItem>,
    number: Option<NumberFilterItem>,
    people: Option<PeopleFilterItem>,
    relation: Option<RelationFilterItem>,
    richText: Option<RichTextFilterItem>,
    select: Option<SelectFilterItem>,
    status: Option<StatusFilterItem>,
    timestamp: Option<TimestampFilterItem>,
    id: Option<IdFilterItem>)
  {
    /** The derived default: empty property, every other field `None`. */
    static const Default: FilterItem := FilterItem("", NoChildren, NoChildren, None, None, None, None, None, None, None, None, None, None, None, None, None)

    /**
     * The serialised object: keys in field order, `property` skipped when
     * empty and every other field skipped when `None`.
     */
    function ToJson(): (j: Json)
      ensures j.JObj?
    {
      JObj(NonEmptyStr("property", property)
        + andItems.Member("and")
        + orItems.Member("or")
        + LeafMembers())
    }

    /** The members of the thirteen predicate fields, in field order. */
    function LeafMembers(): (ms: seq<(string, Json)>)
      ensures forall m :: m in ms ==> Textual(m.1)
      ensures forall m :: m in ms ==> m.0 != "property" && m.0 != "and" && m.0 != "or"
    {
      LeafMembersA() + LeafMembersB() + LeafMembersC() + LeafMembersD()
    }

    function LeafMembersA(): (ms: seq<(string, Json)>)
      ensures forall m :: m in ms ==> Textual(m.1)
      ensures forall m :: m in ms ==> m.0 != "property" && m.0 != "and" && m.0 != "or"
    {
        Opt("checkbox", if checkbox.Some? then Some(checkbox.value.ToJson()) else None)
      + Opt("date", if date.Some? then Some(date.value.ToJson()) else None)
      + Opt("files", if files.Some? then Some(files.value.ToJson()) else None)
    }

    function LeafMembersB(): (ms: seq<(string, Json)>)
      ensures forall m :: m in ms ==> Textual(m.1)
      ensures forall m :: m in ms ==> m.0 != "property" && m.0 != "and" && m.0 != "or"
    {
        Opt("formula", if formula.Some? then Some(formula.value.ToJson()) else None)
      + Opt("multi_select", if multiSelect.Some? then Some(multiSelect.value.ToJson()) else None)
      + Opt("number", if number.Some? then Some(number.value.ToJson()) else None)
    }

    function LeafMembersC(): (ms: seq<(string, Json)>)
      ensures forall m :: m in ms ==> Textual(m.1)
      ensures forall m :: m in ms ==> m.0 != "property" && m.0 != "and" && m.0 != "or"
    {
        Opt("people", if people.Some? then Some(people.value.ToJson()) else None)
      + Opt("relation", if relation.Some? then Some(relation.value.ToJson()) else None)
      + Opt("rich_text", if richText.Some? then Some(richText.value.ToJson()) else None)
    }

    function LeafMembersD(): (ms: seq<(string, Json)>)
      ensures forall m :: m in ms ==> Textual(m.1)
      ensures forall m :: m in ms ==> m.0 != "property" && m.0 != "and" && m.0 != "or"
    {
        Opt("select", if select.Some? then Some(select.value.ToJson()) else None)
      + Opt("status", if status.Some? then Some(status.value.ToJson()) else None)
      + Opt("timestamp", if timestamp.Some? then Some(timestamp.value.ToJson()) else None)
      + Opt("id", if id.Some? then Some(id.value.ToJson()) else None)
    }

    /** `FilterItem::and`: only the `and` list is set, in the given order. */
    static function And(items: seq<FilterItem>): (r: FilterItem)
      ensures r.ToJson() == JObj([("and", Children(items).ToJson())])
    {
      Default.(andItems := Children(items))
    }

    /** `FilterItem::or`: only the `or` list is set, in the given order. */
    static function Or(items: seq<FilterItem>): (r: FilterItem)
      ensures r.ToJson() == JObj([("or", Children(items).ToJson())])
    {
      Default.(orItems := Children(items))
    }

    /** `FilterItem::checkbox`: the property name and the `checkbox` predicate, nothing else. */
    static function Checkbox(property: string, item: CheckboxFilterItem): (r: FilterItem)
      ensures r.ToJson() == JObj(NonEmptyStr("property", property) + [("checkbox", item.ToJson())])
    {
      Default.(property := property, checkbox := Some(item))
    }

    /** `FilterItem::date`: the property name and the `date` predicate, nothing else. */
    static function Date(property: string, item: DateFilterItem): (r: FilterItem)
      ensures r.ToJson() == JObj(NonEmptyStr("property", property) + [("date", item.ToJson())])
    {
      Default.(property := property, date := Some(item))
    }

    /** `FilterItem::files`: the property name and the `files` predicate, nothing else. */
    static function Files(property: string, item: FilesFilterItem): (r: FilterItem)
      ensures r.ToJson() == JObj(NonEmptyStr("property", property) + [("files", item.ToJson())])
    {
      Default.(property := property, files := Some(item))
    }

    /** `FilterItem::formula`: the property name and the `formula` predicate, nothing else. */
    static function Formula(property: string, item: FormulaFilterItem): (r: FilterItem)
      ensures r.ToJson() == JObj(NonEmptyStr("property", property) + [("formula", item.ToJson())])
    {
      Default.(property := property, formula := Some(item))
    }

    /** `FilterItem::multi_select`: the property name and the `multi_select` predicate, nothing else. */
    static function MultiSelect(property: string, item: MultiSelectFilterItem): (r: FilterItem)
      ensures r.ToJson() == JObj(NonEmptyStr("property", property) + [("multi_select", item.ToJson())])
    {
      Default.(property := property, multiSelect := Some(item))
    }

    /** `FilterItem::number`: the property name and the `number` predicate, nothing else. */
    static function Number(property: string, item: NumberFilterItem): (r: FilterItem)
      ensures r.ToJson() == JObj(NonEmptyStr("property", property) + [("number", item.ToJson())])
    {
      Default.(property := property, number := Some(item))
    }

    /** `FilterItem::people`: the property name and the `people` predicate, nothing else. */
    static function People(property: string, item: PeopleFilterItem): (r: FilterItem)
      ensures r.ToJson() == JObj(NonEmptyStr("property", property) + [("people", item.ToJson())])
    {
      Default.(property := property, people := Some(item))
    }

    /** `FilterItem::relation`: the property name and the `relation` predicate, nothing else. */
    static function Relation(property: string, item: RelationFilterItem): (r: FilterItem)
      ensures r.ToJson() == JObj(NonEmptyStr("property", property) + [("relation", item.ToJson())])
    {
      Default.(property := property, relation := Some(item))
    }

    /** `FilterItem::rich_text`: the property name and the `rich_text` predicate, nothing else. */
    static function RichText(property: string, item: RichTextFilterItem): (r: FilterItem)
      ensures r.ToJson() == JObj(NonEmptyStr("property", property) + [("rich_text", item.ToJson())])
    {
      Default.(property := property, richText := Some(item))
    }

    /** `FilterItem::select`: the property name and the `select` predicate, nothing else. */
    static function Select(property: string, item: SelectFilterItem): (r: FilterItem)
      ensures r.ToJson() == JObj(NonEmptyStr("property", property) + [("select", item.ToJson())])
    {
      Default.(property := property, select := Some(item))
    }

    /** `FilterItem::status`: the property name and the `status` predicate, nothing else. */
    static function Status(property: string, item: StatusFilterItem): (r: FilterItem)
      ensures r.ToJson() == JObj(NonEmptyStr("property", property) + [("status", item.ToJson())])
    {
      Default.(property := property, status := Some(item))
    }

    /** `FilterItem::timestamp`: the property name and the `timestamp` predicate, nothing else. */
    static function Timestamp(property: string, item: TimestampFilterItem): (r: FilterItem)
      ensures r.ToJson() == JObj(NonEmptyStr("property", property) + [("timestamp", item.ToJson())])
    {
      Default.(property := property, timestamp := Some(item))
    }

    /** `FilterItem::id`: the property name and the `id` predicate, nothing else. */
    static function Id(property: string, item: IdFilterItem): (r: FilterItem)
      ensures r.ToJson() == JObj(NonEmptyStr("property", property) + [("id", item.ToJson())])
    {
      Default.(property := property, id := Some(item))
    }
  }

  /** Every filter tree has a textual form: no float and no hash map anywhere in it. */
  lemma {:induction false} FilterItemTextual(x: FilterItem)
    ensures Textual(x.ToJson())
    decreases x, 1
  {
    ChildrenTextual(x.andItems);
    ChildrenTextual(x.orItems);
  }

  lemma {:induction false} ChildrenTextual(c: Children)
    ensures Textual(c.ToJson())
    decreases c, 0
  {
    if c.Children? {
      forall x | x in c.ToJson().items ensures Textual(x) {
        var i :| 0 <= i < |c.items| && c.ToJson().items[i] == x;
        FilterItemTextual(c.items[i]);
      }
    }
  }

  /** The compact text of a filter tree. */
  function FilterText(x: FilterItem): string
  {
    FilterItemTextual(x);
    Render(x.ToJson())
  }

  /** The default node has no member at all: it serialises to `{}`. */
  lemma DefaultFilterItemIsEmpty()
    ensures FilterItem.Default.ToJson() == JObj([])
    ensures FilterText(FilterItem.Default) == "{}"
  {
  }

  /**
   * `property` is emitted exactly when it is non-empty, and `and`/`or`
   * exactly when their list is present (even an empty one).
   */
  lemma HeadKeysOmitted(x: FilterItem)
    ensures Emits(x.ToJson(), "property") <==> x.property != ""
    ensures Emits(x.ToJson(), "and") <==> x.andItems.Children?
    ensures Emits(x.ToJson(), "or") <==> x.orItems.Children?
  {
    var ms := x.ToJson().members;
    if x.property != "" {
      assert ("property", JStr(x.property)) in ms;
    }
    if x.andItems.Children? {
      assert ("and", x.andItems.ToJson()) in ms;
    }
    if x.orItems.Children? {
      assert ("or", x.orItems.ToJson()) in ms;
    }
  }

  // ---------------------------------------------------------------- QueryFilter

  /** The request body of a database query: the filter, then the cursor when it is non-empty. */
  function QueryBody(filter: FilterItem, startCursor: string): (j: Json)
    ensures j.JObj? && Textual(j)
    ensures |j.members| == if startCursor == "" then 1 else 2
    ensures j.members[0] == ("filter", filter.ToJson())
    ensures startCursor != "" ==> j.members[1] == ("start_cursor", JStr(startCursor))
  {
    FilterItemTextual(filter);
    JObj(Field("filter", filter.ToJson()) + NonEmptyStr("start_cursor", startCursor))
  }

  /** The wire text of a query body: `{"filter":…}` with `,"start_cursor":"…"` only for a non-empty cursor. */
  lemma QueryBodyText(filter: FilterItem, startCursor: string)
    ensures startCursor == "" ==>
      Render(QueryBody(filter, startCursor)) == "{\"filter\":" + FilterText(filter) + "}"
    ensures startCursor != "" ==>
      Render(QueryBody(filter, startCursor))
      == "{\"filter\":" + FilterText(filter) + ",\"start_cursor\":" + Quote(startCursor) + "}"
  {
    var f := filter.ToJson();
    if startCursor == "" {
      assert QueryBody(filter, startCursor) == JObj([("filter", f)]);
      RenderOne("filter", f);
      FilterKeyText();
    } else {
      assert QueryBody(filter, startCursor) == JObj([("filter", f), ("start_cursor", JStr(startCursor))]);
      RenderTwo("filter", f, "start_cursor", JStr(startCursor));
      FilterKeyText();
      CursorKeyText();
    }
  }

  lemma FilterKeyText()
    ensures "{" + Quote("filter") + ":" == "{\"filter\":"
  {
  }

  lemma CursorKeyText()
    ensures "," + Quote("start_cursor") + ":" == ",\"start_cursor\":"
  {
  }

  /** `QueryFilter`: the filter tree of a query and the cursor of the page to fetch. */
  class QueryFilter {
    var filter: FilterItem
    var startCursor: string

    /** `QueryFilter::new`: the default tree and no cursor. */
    constructor ()
      ensures filter == FilterItem.Default && startCursor == ""
    {
      filter := FilterItem.Default;
      startCursor := "";
    }

    /** `QueryFilter::args`: the whole tree is replaced. */
    method Args(item: FilterItem)
      modifies this
      ensures filter == item && startCursor == old(startCursor)
    {
      filter := item;
    }

    /** `QueryFilter::and`: only the tree's `and` list is assigned. */
    method And(items: seq<FilterItem>)
      modifies this
      ensures filter == old(filter).(andItems := Children(items)) && startCursor == old(startCursor)
    {
      filter := filter.(andItems := Children(items));
    }

    /** `QueryFilter::or`: only the tree's `or` list is assigned. */
    method Or(items: seq<FilterItem>)
      modifies this
      ensures filter == old(filter).(orItems := Children(items)) && startCursor == old(startCursor)
    {
      filter := filter.(orItems := Children(items));
    }

    /** `QueryFilter::build`: the compact JSON text of the query body. */
    method Build() returns (s: string)
      ensures s == Render(QueryBody(filter, startCursor))
      ensures startCursor == "" ==> s == "{\"filter\":" + FilterText(filter) + "}"
      ensures startCursor != "" ==>
        s == "{\"filter\":" + FilterText(filter) + ",\"start_cursor\":" + Quote(startCursor) + "}"
    {
      QueryBodyText(filter, startCursor);
      s := Render(QueryBody(filter, startCursor));
    }
  }

  // ---------------------------------------------------------------- Pagination

  /** The two fields the documented pagination loop reads from a query response. */
  datatype QueryReply = QueryReply(hasMore: Option<bool>, nextCursor: Option<string>)

  /**
   * The cursors carried by the requests of the documented pagination loop,
   * which starts at `cursor` and receives `replies` in order. A successful
   * reply moves the cursor to its `next_cursor` (empty when absent) and ends
   * the loop unless `has_more` is true; a failed reply leaves both the cursor
   * and `has_more` as they were, so the same page is asked for again. The
   * model stops when the replies run out.
   */
  function CursorsSent(cursor: string, replies: seq<Result<QueryReply>>): (sent: seq<string>)
    ensures |sent| <= |replies|
    ensures replies != [] ==> |sent| >= 1 && sent[0] == cursor
    decreases |replies|
  {
    if replies == [] then []
    else match replies[0]
      case Err(_) => [cursor] + CursorsSent(cursor, replies[1..])
      case Ok(r) =>
        if r.hasMore.UnwrapOr(false) then [cursor] + CursorsSent(r.nextCursor.UnwrapOr(""), replies[1..])
        else [cursor]
  }

  /**
   * Request `k + 1` carries the `next_cursor` of reply `k` (or the empty
   * string) when reply `k` succeeded with `has_more`, and the same cursor as
   * request `k` when reply `k` failed.
   */
  lemma {:induction false} CursorChaining(cursor: string, replies: seq<Result<QueryReply>>, k: nat)
    requires k + 1 < |CursorsSent(cursor, replies)|
    decreases |replies|
    ensures replies[k].Ok? ==>
      (replies[k].value.hasMore.UnwrapOr(false)
       && CursorsSent(cursor, replies)[k + 1] == replies[k].value.nextCursor.UnwrapOr(""))
    ensures replies[k].Err? ==> CursorsSent(cursor, replies)[k + 1] == CursorsSent(cursor, replies)[k]
  {
    var next := if replies[0].Ok? then replies[0].value.nextCursor.UnwrapOr("") else cursor;
    assert CursorsSent(cursor, replies) == [cursor] + CursorsSent(next, replies[1..]);
    if k > 0 {
      CursorChaining(next, replies[1..], k - 1);
    }
  }

  /**
   * The loop sends one request per reply until a successful reply without
   * `has_more`; that reply is the last one consumed.
   */
  lemma {:induction false} StopsAtLastPage(cursor: string, replies: seq<Result<QueryReply>>)
    ensures var n := |CursorsSent(cursor, replies)|;
      (forall k :: 0 <= k < n - 1 ==> !(replies[k].Ok? && !replies[k].value.hasMore.UnwrapOr(false)))
      && (n < |replies| ==> n >= 1 && replies[n - 1].Ok? && !replies[n - 1].value.hasMore.UnwrapOr(false))
    decreases |replies|
  {
    if replies != [] {
      var next := if replies[0].Ok? then replies[0].value.nextCursor.UnwrapOr("") else cursor;
      if replies[0].Err? || replies[0].value.hasMore.UnwrapOr(false) {
        StopsAtLastPage(next, replies[1..]);
        var n := |CursorsSent(cursor, replies)|;
        assert n == 1 + |CursorsSent(next, replies[1..])|;
        forall k | 0 <= k < n - 1
          ensures !(replies[k].Ok? && !replies[k].value.hasMore.UnwrapOr(false))
        {
          if k > 0 {
            assert replies[k] == replies[1..][k - 1];
          }
        }
        if n < |replies| {
          assert replies[n - 1] == replies[1..][n - 2];
        }
      }
    }
  }

  /** Three pages: the requests carry the empty cursor, then `c1`, then `c2`. */
  lemma ThreePages()
    ensures CursorsSent("", [Ok(QueryReply(Some(true), Some("c1"))), Ok(QueryReply(Some(true), Some("c2"))),
                             Ok(QueryReply(Some(false), None))]) == ["", "c1", "c2"]
  {
  }

  /**
   * The documented pagination loop over a query filter: while `has_more`,
   * send the filter, then on success take `has_more` and the next cursor from
   * the reply. The query endpoint is the sequence of replies it returns.
   */
  method Paginate(q: QueryFilter, replies: seq<Result<QueryReply>>) returns (sent: seq<string>)
    modifies q
    ensures sent == CursorsSent(old(q.startCursor), replies)
    ensures q.filter == old(q.filter)
  {
    var hasMore := true;
    var k := 0;
    sent := [];
    while hasMore && k < |replies|
      invariant 0 <= k <= |replies|
      decreases |replies| - k
      invariant q.filter == old(q.filter)
      invariant hasMore ==> sent + CursorsSent(q.startCursor, replies[k..]) == CursorsSent(old(q.startCursor), replies)
      invariant !hasMore ==> sent == CursorsSent(old(q.startCursor), replies)
    {
      assert replies[k..][1..] == replies[k + 1..];
      sent := sent + [q.startCursor];
      match replies[k] {
        case Ok(r) =>
          hasMore := r.hasMore.UnwrapOr(false);
          q.startCursor := r.nextCursor.UnwrapOr("");
        case Err(_) =>
      }
      k := k + 1;
    }
  }

  // ---------------------------------------------------------------- The unit test's filter

  /** `FilterItem::checkbox("Property 1", CheckboxFilterItem::equals())`. */
  const TestLeaf1: FilterItem := FilterItem.Checkbox("Property 1", CheckboxFilterItem.Of(CheckboxOp.Equals))
  /** `FilterItem::date("Property 2", DateFilterItem::equals("2024-12-20"))`. */
  const TestLeaf2: FilterItem := FilterItem.Date("Property 2", DateFilterItem.Of(DateOp.Equals("2024-12-20")))
  /** `FilterItem::select("Property 3", SelectFilterItem::equals("Option 1"))`. */
  const TestLeaf3: FilterItem := FilterItem.Select("Property 3", SelectFilterItem.Of(SelectOp.Equals("Option 1")))
  /** `FilterItem::rich_text("Property 4", RichTextFilterItem::contains("Sample Text"))`. */
  const TestLeaf4: FilterItem := FilterItem.RichText("Property 4", RichTextFilterItem.Of(RichTextOp.Contains("Sample Text")))

  /*
   * The text the unit test expects from `build`, written as its tokens:
   * read left to right, the pieces spell
   * {"filter":{"or":[{"property":"Property 1","checkbox":{"equals":true}},
   * {"property":"Property 2","date":{"equals":"2024-12-20"}},{"and":[
   * {"property":"Property 3","select":{"equals":"Option 1"}},
   * {"property":"Property 4","rich_text":{"contains":"Sample Text"}}]}]}}
   */
  const TestLeaf1Text: string :=
    "{\"property\":" + "\"Property 1\"" + ",\"checkbox\":" + ("{\"equals\":" + "true" + "}") + "}"
  const TestLeaf2Text: string :=
    "{\"property\":" + "\"Property 2\"" + ",\"date\":" + ("{\"equals\":" + "\"2024-12-20\"" + "}") + "}"
  const TestLeaf3Text: string :=
    "{\"property\":" + "\"Property 3\"" + ",\"select\":" + ("{\"equals\":" + "\"Option 1\"" + "}") + "}"
  const TestLeaf4Text: string :=
    "{\"property\":" + "\"Property 4\"" + ",\"rich_text\":" + ("{\"contains\":" + "\"Sample Text\"" + "}") + "}"
  const TestFilterText: string :=
    "{\"filter\":"
    + ("{\"or\":"
       + ("[" + TestLeaf1Text + "," + TestLeaf2Text + ","
          + ("{\"and\":" + ("[" + TestLeaf3Text + "," + TestLeaf4Text + "]") + "}")
          + "]")
       + "}")
    + "}"

  /**
   * The unit test: a new query filter given the `or` of a checkbox leaf, a
   * date leaf and the `and` of a select leaf and a rich-text leaf builds to
   * exactly the expected text.
   */
  method BuildTestFilter() returns (s: string)
    ensures s == TestFilterText
  {
    var q := new QueryFilter();
    q.Or([TestLeaf1, TestLeaf2, FilterItem.And([TestLeaf3, TestLeaf4])]);
    s := q.Build();
    TestFilterRenders();
  }

  /** The rendering of the unit test's tree, assembled from its leaves. */
  lemma TestFilterRenders()
    ensures Render(QueryBody(FilterItem.Or([TestLeaf1, TestLeaf2, FilterItem.And([TestLeaf3, TestLeaf4])]), ""))
      == TestFilterText
  {
    var inner := FilterItem.And([TestLeaf3, TestLeaf4]);
    var top := FilterItem.Or([TestLeaf1, TestLeaf2, inner]);
    TestLeavesRender();
    AndOfTwoRenders(TestLeaf3, TestLeaf4);
    OrOfThreeRenders(TestLeaf1, TestLeaf2, inner);
    QueryBodyText(top, "");
    TestOuterKeysText();
    TestAndKeyText();
  }

  /** An `and` node over two children renders as `{"and":[…,…]}`. */
  lemma AndOfTwoRenders(a: FilterItem, b: FilterItem)
    ensures FilterText(FilterItem.And([a, b]))
      == ("{" + Quote("and") + ":") + ("[" + FilterText(a) + "," + FilterText(b) + "]") + "}"
  {
    FilterItemTextual(a);
    FilterItemTextual(b);
    assert Children([a, b]).ToJson() == JArr([a.ToJson(), b.ToJson()]);
    RenderArrTwo(a.ToJson(), b.ToJson());
    RenderOne("and", JArr([a.ToJson(), b.ToJson()]));
  }

  /** A default node given an `or` list of three children renders as `{"or":[…,…,…]}`. */
  lemma OrOfThreeRenders(a: FilterItem, b: FilterItem, c: FilterItem)
    ensures FilterText(FilterItem.Or([a, b, c]))
      == ("{" + Quote("or") + ":") + ("[" + FilterText(a) + "," + FilterText(b) + "," + FilterText(c) + "]") + "}"
  {
    FilterItemTextual(a);
    FilterItemTextual(b);
    FilterItemTextual(c);
    assert Children([a, b, c]).ToJson() == JArr([a.ToJson(), b.ToJson(), c.ToJson()]);
    RenderArrThree(a.ToJson(), b.ToJson(), c.ToJson());
    RenderOne("or", JArr([a.ToJson(), b.ToJson(), c.ToJson()]));
  }

  /** Each leaf of the unit test renders to its expected text. */
  lemma TestLeavesRender()
    ensures FilterText(TestLeaf1) == TestLeaf1Text
    ensures FilterText(TestLeaf2) == TestLeaf2Text
    ensures FilterText(TestLeaf3) == TestLeaf3Text
    ensures FilterText(TestLeaf4) == TestLeaf4Text
  {
    LeafRenders("Property 1", "checkbox", "equals", JBool(true));
    LeafRenders("Property 2", "date", "equals", JStr("2024-12-20"));
    LeafRenders("Property 3", "select", "equals", JStr("Option 1"));
    LeafRenders("Property 4", "rich_text", "contains", JStr("Sample Text"));
    TestLeafKeysText();
    TestKindKeysText();
    TestPropertiesText();
    TestValuesText();
  }

  /** A leaf whose predicate sets one operator renders as property, kind, operator. */
  lemma LeafRenders(p: string, kind: string, op: string, v: Json)
    requires p != "" && Textual(v)
    ensures Render(JObj(NonEmptyStr("property", p) + [(kind, JObj([(op, v)]))]))
      == ("{" + Quote("property") + ":") + Quote(p) + ("," + Quote(kind) + ":")
         + (("{" + Quote(op) + ":") + Render(v) + "}") + "}"
  {
    assert NonEmptyStr("property", p) + [(kind, JObj([(op, v)]))] == [("property", JStr(p)), (kind, JObj([(op, v)]))];
    RenderOne(op, v);
    RenderTwo("property", JStr(p), kind, JObj([(op, v)]));
  }

  // The tokens of the unit test's text, a few per lemma.

  lemma TestOuterKeysText()
    ensures "{" + Quote("filter") + ":" == "{\"filter\":"
    ensures "{" + Quote("or") + ":" == "{\"or\":"
  {
  }

  lemma TestAndKeyText()
    ensures "{" + Quote("and") + ":" == "{\"and\":"
  {
  }

  lemma TestLeafKeysText()
    ensures "{" + Quote("property") + ":" == "{\"property\":"
    ensures "{" + Quote("equals") + ":" == "{\"equals\":"
    ensures "{" + Quote("contains") + ":" == "{\"contains\":"
  {
  }

  lemma TestKindKeysText()
    ensures "," + Quote("checkbox") + ":" == ",\"checkbox\":"
    ensures "," + Quote("date") + ":" == ",\"date\":"
    ensures "," + Quote("select") + ":" == ",\"select\":"
    ensures "," + Quote("rich_text") + ":" == ",\"rich_text\":"
  {
  }

  lemma TestPropertiesText()
    ensures Quote("Property 1") == "\"Property 1\""
    ensures Quote("Property 2") == "\"Property 2\""
    ensures Quote("Property 3") == "\"Property 3\""
    ensures Quote("Property 4") == "\"Property 4\""
  {
  }

  lemma TestValuesText()
    ensures Render(JStr("2024-12-20")) == "\"2024-12-20\""
    ensures Render(JStr("Option 1")) == "\"Option 1\""
    ensures Render(JStr("Sample Text")) == "\"Sample Text\""
    ensures Render(JBool(true)) == "true"
  {
  }
}
