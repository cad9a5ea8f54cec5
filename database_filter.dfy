/**
 * The older database filter builder. Its predicate records are mutated by
 * `&mut self` setters that return a copy of the new state, so successive
 * setters on one record accumulate. The tree it builds (`DatabaseFilterItems`)
 * has the fields, constructors and serialisation of the query filter's
 * `FilterItem`, and is modelled by that datatype; the predicate records are
 * the query filter's record datatypes as values.
 */
module DatabaseFilter {
  import opened Wrappers
  import opened Json
  import QF = QueryFilter

  /**
   * `CheckboxFilterItem` as the builder mutates it: its fields, updated in place by
   * the setters.
   */
  class CheckboxFilterItem {
    var equals: Option<bool>
    var doesNotEqual: Option<bool>

    /** The record as a value. */
    function Value(): QF.CheckboxFilterItem
      reads this
    {
      QF.CheckboxFilterItem(equals, doesNotEqual)
    }

    /** `Default::default()`: every field `None`. */
    constructor ()
      ensures Value() == QF.CheckboxFilterItem.Default
    {
      equals := None;
      doesNotEqual := None;
    }

    /**
     * The setters (`equals`, `is_empty`, ...): the operator's field is
     * assigned on the receiver and a copy of the new state is returned.
     */
    method Apply(op: QF.CheckboxOp) returns (r: QF.CheckboxFilterItem)
      modifies this
      ensures Value() == old(Value()).With(op)
      ensures r == Value()
    {
      match op {
        case Equals => equals := Some(true);
        case DoesNotEqual => doesNotEqual := Some(true);
      }
      r := Value();
    }
  }

  /**
   * `DateFilterItem` as the builder mutates it: its fields, updated in place by
   * the setters.
   */
  class DateFilterItem {
    var after: Option<string>
    var before: Option<string>
    var equals: Option<string>
    var isEmpty: Option<bool>
    var isNotEmpty: Option<bool>
    var onOrAfter: Option<string>
    var onOrBefore: Option<string>

    /** The record as a value. */
    function Value(): QF.DateFilterItem
      reads this
    {
      QF.DateFilterItem(after, before, equals, isEmpty, isNotEmpty, onOrAfter, onOrBefore)
    }

    /** `Default::default()`: every field `None`. */
    constructor ()
      ensures Value() == QF.DateFilterItem.Default
    {
      after := None;
      before := None;
      equals := None;
      isEmpty := None;
      isNotEmpty := None;
      onOrAfter := None;
      onOrBefore := None;
    }

    /**
     * The setters (`equals`, `is_empty`, ...): the operator's field is
     * assigned on the receiver and a copy of the new state is returned.
     */
    method Apply(op: QF.DateOp) returns (r: QF.DateFilterItem)
      modifies this
      ensures Value() == old(Value()).With(op)
      ensures r == Value()
    {
      match op {
        case Equals(value) => equals := Some(value);
        case After(value) => after := Some(value);
        case Before(value) => before := Some(value);
        case IsEmpty => isEmpty := Some(true);
        case IsNotEmpty => isNotEmpty := Some(true);
        case OnOrAfter(value) => onOrAfter := Some(value);
        case OnOrBefore(value) => onOrBefore := Some(value);
      }
      r := Value();
    }
  }

  /**
   * `FilesFilterItem` as the builder mutates it: its fields, updated in place by
   * the setters.
   */
  class FilesFilterItem {
    var isEmpty: Option<bool>
    var isNotEmpty: Option<bool>

    /** The record as a value. */
    function Value(): QF.FilesFilterItem
      reads this
    {
      QF.FilesFilterItem(isEmpty, isNotEmpty)
    }

    /** `Default::default()`: every field `None`. */
    constructor ()
      ensures Value() == QF.FilesFilterItem.Default
    {
      isEmpty := None;
      isNotEmpty := None;
    }

    /**
     * The setters (`equals`, `is_empty`, ...): the operator's field is
     * assigned on the receiver and a copy of the new state is returned.
     */
    method Apply(op: QF.FilesOp) returns (r: QF.FilesFilterItem)
      modifies this
      ensures Value() == old(Value()).With(op)
      ensures r == Value()
    {
      match op {
        case IsEmpty => isEmpty := Some(true);
        case IsNotEmpty => isNotEmpty := Some(true);
      }
      r := Value();
    }
  }

  /**
   * `FormulaFilterItem` as the builder mutates it: its fields, updated in place by
   * the setters.
   */
  class FormulaFilterItem {
    var checkbox: Option<QF.CheckboxFilterItem>
    var date: Option<QF.DateFilterItem>
    var number: Option<QF.NumberFilterItem>
    var stringItem: Option<QF.RichTextFilterItem>

    /** The record as a value. */
    function Value(): QF.FormulaFilterItem
      reads this
    {
      QF.FormulaFilterItem(checkbox, date, number, stringItem)
    }

    /** `Default::default()`: every field `None`. */
    constructor ()
      ensures Value() == QF.FormulaFilterItem.Default
    {
      checkbox := None;
      date := None;
      number := None;
      stringItem := None;
    }

    /**
     * The setters (`equals`, `is_empty`, ...): the operator's field is
     * assigned on the receiver and a copy of the new state is returned.
     */
    method Apply(op: QF.FormulaOp) returns (r: QF.FormulaFilterItem)
      modifies this
      ensures Value() == old(Value()).With(op)
      ensures r == Value()
    {
      match op {
        case Checkbox(item) => checkbox := Some(item);
        case Date(item) => date := Some(item);
        case Number(item) => number := Some(item);
        case String(item) => stringItem := Some(item);
      }
      r := Value();
    }
  }

  /**
   * `MultiSelectFilterItem` as the builder mutates it: its fields, updated in place by
   * the setters.
   */
  class MultiSelectFilterItem {
    var contains: Option<string>
    var doesNotContain: Option<string>
    var equals: Option<bool>
    var doesNotEqual: Option<bool>

    /** The record as a value. */
    function Value(): QF.MultiSelectFilterItem
      reads this
    {
      QF.MultiSelectFilterItem(contains, doesNotContain, equals, doesNotEqual)
    }

    /** `Default::default()`: every field `None`. */
    constructor ()
      ensures Value() == QF.MultiSelectFilterItem.Default
    {
      contains := None;
      doesNotContain := None;
      equals := None;
      doesNotEqual := None;
    }

    /**
     * The setters (`equals`, `is_empty`, ...): the operator's field is
     * assigned on the receiver and a copy of the new state is returned.
     */
    method Apply(op: QF.MultiSelectOp) returns (r: QF.MultiSelectFilterItem)
      modifies this
      ensures Value() == old(Value()).With(op)
      ensures r == Value()
    {
      match op {
        case Contains(value) => contains := Some(value);
        case DoesNotContain(value) => doesNotContain := Some(value);
        case Equals => equals := Some(true);
        case DoesNotEqual => doesNotEqual := Some(true);
      }
      r := Value();
    }
  }

  /**
   * `NumberFilterItem` as the builder mutates it: its fields, updated in place by
   * the setters.
   */
  class NumberFilterItem {
    var equals: Option<uint128>
    var doesNotEqual: Option<uint128>
    var greaterThan: Option<uint128>
    var lessThan: Option<uint128>
    var greaterThanOrEqualTo: Option<uint128>
    var lessThanOrEqualTo: Option<uint128>
    var isEmpty: Option<bool>
    var isNotEmpty: Option<bool>

    /** The record as a value. */
    function Value(): QF.NumberFilterItem
      reads this
    {
      QF.NumberFilterItem(equals, doesNotEqual, greaterThan, lessThan, greaterThanOrEqualTo, lessThanOrEqualTo, isEmpty, isNotEmpty)
    }

    /** `Default::default()`: every field `None`. */
    constructor ()
      ensures Value() == QF.NumberFilterItem.Default
    {
      equals := None;
      doesNotEqual := None;
      greaterThan := None;
      lessThan := None;
      greaterThanOrEqualTo := None;
      lessThanOrEqualTo := None;
      isEmpty := None;
      isNotEmpty := None;
    }

    /**
     * The setters (`equals`, `is_empty`, ...): the operator's field is
     * assigned on the receiver and a copy of the new state is returned.
     */
    method Apply(op: QF.NumberOp) returns (r: QF.NumberFilterItem)
      modifies this
      ensures Value() == old(Value()).With(op)
      ensures r == Value()
    {
      match op {
        case Equals(value) => equals := Some(value);
        case DoesNotEqual(value) => doesNotEqual := Some(value);
        case GreaterThan(value) => greaterThan := Some(value);
        case LessThan(value) => lessThan := Some(value);
        case GreaterThanOrEqualTo(value) => greaterThanOrEqualTo := Some(value);
        case LessThanOrEqualTo(value) => lessThanOrEqualTo := Some(value);
        case IsEmpty => isEmpty := Some(true);
        case IsNotEmpty => isNotEmpty := Some(true);
      }
      r := Value();
    }
  }

  /**
   * `PeopleFilterItem` as the builder mutates it: its fields, updated in place by
   * the setters.
   */
  class PeopleFilterItem {
    var contains: Option<string>
    var doesNotContain: Option<string>
    var isEmpty: Option<bool>
    var isNotEmpty: Option<bool>

    /** The record as a value. */
    function Value(): QF.PeopleFilterItem
      reads this
    {
      QF.PeopleFilterItem(contains, doesNotContain, isEmpty, isNotEmpty)
    }

    /** `Default::default()`: every field `None`. */
    constructor ()
      ensures Value() == QF.PeopleFilterItem.Default
    {
      contains := None;
      doesNotContain := None;
      isEmpty := None;
      isNotEmpty := None;
    }

    /**
     * The setters (`equals`, `is_empty`, ...): the operator's field is
     * assigned on the receiver and a copy of the new state is returned.
     */
    method Apply(op: QF.PeopleOp) returns (r: QF.PeopleFilterItem)
      modifies this
      ensures Value() == old(Value()).With(op)
      ensures r == Value()
    {
      match op {
        case Contains(value) => contains := Some(value);
        case DoesNotContain(value) => doesNotContain := Some(value);
        case IsEmpty => isEmpty := Some(true);
        case IsNotEmpty => isNotEmpty := Some(true);
      }
      r := Value();
    }
  }

  /**
   * `RelationFilterItem` as the builder mutates it: its fields, updated in place by
   * the setters.
   */
  class RelationFilterItem {
    var contains: Option<string>
    var doesNotContain: Option<string>
    var isEmpty: Option<bool>
    var isNotEmpty: Option<bool>

    /** The record as a value. */
    function Value(): QF.RelationFilterItem
      reads this
    {
      QF.RelationFilterItem(contains, doesNotContain, isEmpty, isNotEmpty)
    }

    /** `Default::default()`: every field `None`. */
    constructor ()
      ensures Value() == QF.RelationFilterItem.Default
    {
      contains := None;
      doesNotContain := None;
      isEmpty := None;
      isNotEmpty := None;
    }

    /**
     * The setters (`equals`, `is_empty`, ...): the operator's field is
     * assigned on the receiver and a copy of the new state is returned.
     */
    method Apply(op: QF.RelationOp) returns (r: QF.RelationFilterItem)
      modifies this
      ensures Value() == old(Value()).With(op)
      ensures r == Value()
    {
      match op {
        case Contains(value) => contains := Some(value);
        case DoesNotContain(value) => doesNotContain := Some(value);
        case IsEmpty => isEmpty := Some(true);
        case IsNotEmpty => isNotEmpty := Some(true);
      }
      r := Value();
    }
  }

  /**
   * `RichTextFilterItem` as the builder mutates it: its fields, updated in place by
   * the setters.
   */
  class RichTextFilterItem {
    var contains: Option<string>
    var doesNotContain: Option<string>
    var equals: Option<string>
    var doesNotEqual: Option<string>
    var startsWith: Option<string>
    var endsWith: Option<string>
    var isEmpty: Option<bool>
    var isNotEmpty: Option<bool>

    /** The record as a value. */
    function Value(): QF.RichTextFilterItem
      reads this
    {
      QF.RichTextFilterItem(contains, doesNotContain, equals, doesNotEqual, startsWith, endsWith, isEmpty, isNotEmpty)
    }

    /** `Default::default()`: every field `None`. */
    constructor ()
      ensures Value() == QF.RichTextFilterItem.Default
    {
      contains := None;
      doesNotContain := None;
      equals := None;
      doesNotEqual := None;
      startsWith := None;
      endsWith := None;
      isEmpty := None;
      isNotEmpty := None;
    }

    /**
     * The setters (`equals`, `is_empty`, ...): the operator's field is
     * assigned on the receiver and a copy of the new state is returned.
     */
    method Apply(op: QF.RichTextOp) returns (r: QF.RichTextFilterItem)
      modifies this
      ensures Value() == old(Value()).With(op)
      ensures r == Value()
    {
      match op {
        case Contains(value) => contains := Some(value);
        case DoesNotContain(value) => doesNotContain := Some(value);
        case Equals(value) => equals := Some(value);
        case DoesNotEqual(value) => doesNotEqual := Some(value);
        case StartsWith(value) => startsWith := Some(value);
        case EndsWith(value) => endsWith := Some(value);
        case IsEmpty => isEmpty := Some(true);
        case IsNotEmpty => isNotEmpty := Some(true);
      }
      r := Value();
    }
  }

  /**
   * `SelectFilterItem` as the builder mutates it: its fields, updated in place by
   * the setters.
   */
  class SelectFilterItem {
    var equals: Option<string>
    var doesNotEquals: Option<string>
    var isEmpty: Option<bool>
    var isNotEmpty: Option<bool>

    /** The record as a value. */
    function Value(): QF.SelectFilterItem
      reads this
    {
      QF.SelectFilterItem(equals, doesNotEquals, isEmpty, isNotEmpty)
    }

    /** `Default::default()`: every field `None`. */
    constructor ()
      ensures Value() == QF.SelectFilterItem.Default
    {
      equals := None;
      doesNotEquals := None;
      isEmpty := None;
      isNotEmpty := None;
    }

    /**
     * The setters (`equals`, `is_empty`, ...): the operator's field is
     * assigned on the receiver and a copy of the new state is returned.
     */
    method Apply(op: QF.SelectOp) returns (r: QF.SelectFilterItem)
      modifies this
      ensures Value() == old(Value()).With(op)
      ensures r == Value()
    {
      match op {
        case Equals(value) => equals := Some(value);
        case DoesNotEquals(value) => doesNotEquals := Some(value);
        case IsEmpty => isEmpty := Some(true);
        case IsNotEmpty => isNotEmpty := Some(true);
      }
      r := Value();
    }
  }

  /**
   * `StatusFilterItem` as the builder mutates it: its fields, updated in place by
   * the setters.
   */
  class StatusFilterItem {
    var equals: Option<string>
    var doesNotEquals: Option<string>
    var isEmpty: Option<bool>
    var isNotEmpty: Option<bool>

    /** The record as a value. */
    function Value(): QF.StatusFilterItem
      reads this
    {
      QF.StatusFilterItem(equals, doesNotEquals, isEmpty, isNotEmpty)
    }

    /** `Default::default()`: every field `None`. */
    constructor ()
      ensures Value() == QF.StatusFilterItem.Default
    {
      equals := None;
      doesNotEquals := None;
      isEmpty := None;
      isNotEmpty := None;
    }

    /**
     * The setters (`equals`, `is_empty`, ...): the operator's field is
     * assigned on the receiver and a copy of the new state is returned.
     */
    method Apply(op: QF.StatusOp) returns (r: QF.StatusFilterItem)
      modifies this
      ensures Value() == old(Value()).With(op)
      ensures r == Value()
    {
      match op {
        case Equals(value) => equals := Some(value);
        case DoesNotEquals(value) => doesNotEquals := Some(value);
        case IsEmpty => isEmpty := Some(true);
        case IsNotEmpty => isNotEmpty := Some(true);
      }
      r := Value();
    }
  }

  /**
   * `TimestampFilterItem` as the builder mutates it: its fields, updated in place by
   * the setters.
   */
  class TimestampFilterItem {
    var timestamp: Option<string>
    var createdTime: Option<QF.DateFilterItem>
    var lastEditedTime: Option<QF.DateFilterItem>

    /** The record as a value. */
    function Value(): QF.TimestampFilterItem
      reads this
    {
      QF.TimestampFilterItem(timestamp, createdTime, lastEditedTime)
    }

    /** `Default::default()`: every field `None`. */
    constructor ()
      ensures Value() == QF.TimestampFilterItem.Default
    {
      timestamp := None;
      createdTime := None;
      lastEditedTime := None;
    }

    /**
     * The setters (`equals`, `is_empty`, ...): the operator's field is
     * assigned on the receiver and a copy of the new state is returned.
     */
    method Apply(op: QF.TimestampOp) returns (r: QF.TimestampFilterItem)
      modifies this
      ensures Value() == old(Value()).With(op)
      ensures r == Value()
    {
      match op {
        case Timestamp(value) => timestamp := Some(value);
        case CreatedTime(item) => createdTime := Some(item);
        case LastEditedTime(item) => lastEditedTime := Some(item);
      }
      r := Value();
    }
  }

  /**
   * `IdFilterItem` as the builder mutates it: its fields, updated in place by
   * the setters.
   */
  class IdFilterItem {
    var equals: Option<uint128>
    var doesNotEqual: Option<uint128>
    var greaterThan: Option<uint128>
    var lessThan: Option<uint128>
    var greaterThanOrEqualTo: Option<uint128>
    var lessThanOrEqualTo: Option<uint128>

    /** The record as a value. */
    function Value(): QF.IdFilterItem
      reads this
    {
      QF.IdFilterItem(equals, doesNotEqual, greaterThan, lessThan, greaterThanOrEqualTo, lessThanOrEqualTo)
    }

    /** `Default::default()`: every field `None`. */
    constructor ()
      ensures Value() == QF.IdFilterItem.Default
    {
      equals := None;
      doesNotEqual := None;
      greaterThan := None;
      lessThan := None;
      greaterThanOrEqualTo := None;
      lessThanOrEqualTo := None;
    }

    /**
     * The setters (`equals`, `is_empty`, ...): the operator's field is
     * assigned on the receiver and a copy of the new state is returned.
     */
    method Apply(op: QF.IdOp) returns (r: QF.IdFilterItem)
      modifies this
      ensures Value() == old(Value()).With(op)
      ensures r == Value()
    {
      match op {
        case Equals(value) => equals := Some(value);
        case DoesNotEqual(value) => doesNotEqual := Some(value);
        case GreaterThan(value) => greaterThan := Some(value);
        case LessThan(value) => lessThan := Some(value);
        case GreaterThanOrEqualTo(value) => greaterThanOrEqualTo := Some(value);
        case LessThanOrEqualTo(value) => lessThanOrEqualTo := Some(value);
      }
      r := Value();
    }
  }


  // ------------------------------------------------------------ setter laws
  //
  // Three laws per record kind, the same for all thirteen: setting one field
  // twice keeps the last value, setters of different fields commute, and one
  // setter on a default record gives the newer builder's one-field record
  // (`Of`), which links the two filter builders.

  /** Setting the same `CheckboxFilterItem` field twice: the last value wins. */
  lemma CheckboxLastWins(x: QF.CheckboxFilterItem, a: QF.CheckboxOp, b: QF.CheckboxOp)
    requires a.Member().0 == b.Member().0
    ensures x.With(a).With(b) == x.With(b)
  {
  }

  /** Setters of two different `CheckboxFilterItem` fields accumulate, in either order. */
  lemma CheckboxSettersCommute(x: QF.CheckboxFilterItem, a: QF.CheckboxOp, b: QF.CheckboxOp)
    requires a.Member().0 != b.Member().0
    ensures x.With(a).With(b) == x.With(b).With(a)
  {
  }

  /** The first setter on a default `CheckboxFilterItem` gives the one-field record of the newer builder. */
  lemma CheckboxFirstSetter(op: QF.CheckboxOp)
    ensures QF.CheckboxFilterItem.Default.With(op) == QF.CheckboxFilterItem.Of(op)
    ensures QF.CheckboxFilterItem.Default.With(op).Members() == [op.Member()]
  {
  }

  /** Setting the same `DateFilterItem` field twice: the last value wins. */
  lemma DateLastWins(x: QF.DateFilterItem, a: QF.DateOp, b: QF.DateOp)
    requires a.Member().0 == b.Member().0
    ensures x.With(a).With(b) == x.With(b)
  {
  }

  /** Setters of two different `DateFilterItem` fields accumulate, in either order. */
  lemma DateSettersCommute(x: QF.DateFilterItem, a: QF.DateOp, b: QF.DateOp)
    requires a.Member().0 != b.Member().0
    ensures x.With(a).With(b) == x.With(b).With(a)
  {
  }

  /** The first setter on a default `DateFilterItem` gives the one-field record of the newer builder. */
  lemma DateFirstSetter(op: QF.DateOp)
    ensures QF.DateFilterItem.Default.With(op) == QF.DateFilterItem.Of(op)
    ensures QF.DateFilterItem.Default.With(op).Members() == [op.Member()]
  {
  }

  /** Setting the same `FilesFilterItem` field twice: the last value wins. */
  lemma FilesLastWins(x: QF.FilesFilterItem, a: QF.FilesOp, b: QF.FilesOp)
    requires a.Member().0 == b.Member().0
    ensures x.With(a).With(b) == x.With(b)
  {
  }

  /** Setters of two different `FilesFilterItem` fields accumulate, in either order. */
  lemma FilesSettersCommute(x: QF.FilesFilterItem, a: QF.FilesOp, b: QF.FilesOp)
    requires a.Member().0 != b.Member().0
    ensures x.With(a).With(b) == x.With(b).With(a)
  {
  }

  /** The first setter on a default `FilesFilterItem` gives the one-field record of the newer builder. */
  lemma FilesFirstSetter(op: QF.FilesOp)
    ensures QF.FilesFilterItem.Default.With(op) == QF.FilesFilterItem.Of(op)
    ensures QF.FilesFilterItem.Default.With(op).Members() == [op.Member()]
  {
  }

  /** Setting the same `FormulaFilterItem` field twice: the last value wins. */
  lemma FormulaLastWins(x: QF.FormulaFilterItem, a: QF.FormulaOp, b: QF.FormulaOp)
    requires a.Member().0 == b.Member().0
    ensures x.With(a).With(b) == x.With(b)
  {
  }

  /** Setters of two different `FormulaFilterItem` fields accumulate, in either order. */
  lemma FormulaSettersCommute(x: QF.FormulaFilterItem, a: QF.FormulaOp, b: QF.FormulaOp)
    requires a.Member().0 != b.Member().0
    ensures x.With(a).With(b) == x.With(b).With(a)
  {
  }

  /** The first setter on a default `FormulaFilterItem` gives the one-field record of the newer builder. */
  lemma FormulaFirstSetter(op: QF.FormulaOp)
    ensures QF.FormulaFilterItem.Default.With(op) == QF.FormulaFilterItem.Of(op)
    ensures QF.FormulaFilterItem.Default.With(op).Members() == [op.Member()]
  {
  }

  /** Setting the same `MultiSelectFilterItem` field twice: the last value wins. */
  lemma MultiSelectLastWins(x: QF.MultiSelectFilterItem, a: QF.MultiSelectOp, b: QF.MultiSelectOp)
    requires a.Member().0 == b.Member().0
    ensures x.With(a).With(b) == x.With(b)
  {
  }

  /** Setters of two different `MultiSelectFilterItem` fields accumulate, in either order. */
  lemma MultiSelectSettersCommute(x: QF.MultiSelectFilterItem, a: QF.MultiSelectOp, b: QF.MultiSelectOp)
    requires a.Member().0 != b.Member().0
    ensures x.With(a).With(b) == x.With(b).With(a)
  {
  }

  /** The first setter on a default `MultiSelectFilterItem` gives the one-field record of the newer builder. */
  lemma MultiSelectFirstSetter(op: QF.MultiSelectOp)
    ensures QF.MultiSelectFilterItem.Default.With(op) == QF.MultiSelectFilterItem.Of(op)
    ensures QF.MultiSelectFilterItem.Default.With(op).Members() == [op.Member()]
  {
  }

  /** Setting the same `NumberFilterItem` field twice: the last value wins. */
  lemma NumberLastWins(x: QF.NumberFilterItem, a: QF.NumberOp, b: QF.NumberOp)
    requires a.Member().0 == b.Member().0
    ensures x.With(a).With(b) == x.With(b)
  {
  }

  /** Setters of two different `NumberFilterItem` fields accumulate, in either order. */
  lemma NumberSettersCommute(x: QF.NumberFilterItem, a: QF.NumberOp, b: QF.NumberOp)
    requires a.Member().0 != b.Member().0
    ensures x.With(a).With(b) == x.With(b).With(a)
  {
  }

  /** The first setter on a default `NumberFilterItem` gives the one-field record of the newer builder. */
  lemma NumberFirstSetter(op: QF.NumberOp)
    ensures QF.NumberFilterItem.Default.With(op) == QF.NumberFilterItem.Of(op)
    ensures QF.NumberFilterItem.Default.With(op).Members() == [op.Member()]
  {
  }

  /** Setting the same `PeopleFilterItem` field twice: the last value wins. */
  lemma PeopleLastWins(x: QF.PeopleFilterItem, a: QF.PeopleOp, b: QF.PeopleOp)
    requires a.Member().0 == b.Member().0
    ensures x.With(a).With(b) == x.With(b)
  {
  }

  /** Setters of two different `PeopleFilterItem` fields accumulate, in either order. */
  lemma PeopleSettersCommute(x: QF.PeopleFilterItem, a: QF.PeopleOp, b: QF.PeopleOp)
    requires a.Member().0 != b.Member().0
    ensures x.With(a).With(b) == x.With(b).With(a)
  {
  }

  /** The first setter on a default `PeopleFilterItem` gives the one-field record of the newer builder. */
  lemma PeopleFirstSetter(op: QF.PeopleOp)
    ensures QF.PeopleFilterItem.Default.With(op) == QF.PeopleFilterItem.Of(op)
    ensures QF.PeopleFilterItem.Default.With(op).Members() == [op.Member()]
  {
  }

  /** Setting the same `RelationFilterItem` field twice: the last value wins. */
  lemma RelationLastWins(x: QF.RelationFilterItem, a: QF.RelationOp, b: QF.RelationOp)
    requires a.Member().0 == b.Member().0
    ensures x.With(a).With(b) == x.With(b)
  {
  }

  /** Setters of two different `RelationFilterItem` fields accumulate, in either order. */
  lemma RelationSettersCommute(x: QF.RelationFilterItem, a: QF.RelationOp, b: QF.RelationOp)
    requires a.Member().0 != b.Member().0
    ensures x.With(a).With(b) == x.With(b).With(a)
  {
  }

  /** The first setter on a default `RelationFilterItem` gives the one-field record of the newer builder. */
  lemma RelationFirstSetter(op: QF.RelationOp)
    ensures QF.RelationFilterItem.Default.With(op) == QF.RelationFilterItem.Of(op)
    ensures QF.RelationFilterItem.Default.With(op).Members() == [op.Member()]
  {
  }

  /** Setting the same `RichTextFilterItem` field twice: the last value wins. */
  lemma RichTextLastWins(x: QF.RichTextFilterItem, a: QF.RichTextOp, b: QF.RichTextOp)
    requires a.Member().0 == b.Member().0
    ensures x.With(a).With(b) == x.With(b)
  {
  }

  /** Setters of two different `RichTextFilterItem` fields accumulate, in either order. */
  lemma RichTextSettersCommute(x: QF.RichTextFilterItem, a: QF.RichTextOp, b: QF.RichTextOp)
    requires a.Member().0 != b.Member().0
    ensures x.With(a).With(b) == x.With(b).With(a)
  {
  }

  /** The first setter on a default `RichTextFilterItem` gives the one-field record of the newer builder. */
  lemma RichTextFirstSetter(op: QF.RichTextOp)
    ensures QF.RichTextFilterItem.Default.With(op) == QF.RichTextFilterItem.Of(op)
    ensures QF.RichTextFilterItem.Default.With(op).Members() == [op.Member()]
  {
  }

  /** Setting the same `SelectFilterItem` field twice: the last value wins. */
  lemma SelectLastWins(x: QF.SelectFilterItem, a: QF.SelectOp, b: QF.SelectOp)
    requires a.Member().0 == b.Member().0
    ensures x.With(a).With(b) == x.With(b)
  {
  }

  /** Setters of two different `SelectFilterItem` fields accumulate, in either order. */
  lemma SelectSettersCommute(x: QF.SelectFilterItem, a: QF.SelectOp, b: QF.SelectOp)
    requires a.Member().0 != b.Member().0
    ensures x.With(a).With(b) == x.With(b).With(a)
  {
  }

  /** The first setter on a default `SelectFilterItem` gives the one-field record of the newer builder. */
  lemma SelectFirstSetter(op: QF.SelectOp)
    ensures QF.SelectFilterItem.Default.With(op) == QF.SelectFilterItem.Of(op)
    ensures QF.SelectFilterItem.Default.With(op).Members() == [op.Member()]
  {
  }

  /** Setting the same `StatusFilterItem` field twice: the last value wins. */
  lemma StatusLastWins(x: QF.StatusFilterItem, a: QF.StatusOp, b: QF.StatusOp)
    requires a.Member().0 == b.Member().0
    ensures x.With(a).With(b) == x.With(b)
  {
  }

  /** Setters of two different `StatusFilterItem` fields accumulate, in either order. */
  lemma StatusSettersCommute(x: QF.StatusFilterItem, a: QF.StatusOp, b: QF.StatusOp)
    requires a.Member().0 != b.Member().0
    ensures x.With(a).With(b) == x.With(b).With(a)
  {
  }

  /** The first setter on a default `StatusFilterItem` gives the one-field record of the newer builder. */
  lemma StatusFirstSetter(op: QF.StatusOp)
    ensures QF.StatusFilterItem.Default.With(op) == QF.StatusFilterItem.Of(op)
    ensures QF.StatusFilterItem.Default.With(op).Members() == [op.Member()]
  {
  }

  /** Setting the same `TimestampFilterItem` field twice: the last value wins. */
  lemma TimestampLastWins(x: QF.TimestampFilterItem, a: QF.TimestampOp, b: QF.TimestampOp)
    requires a.Member().0 == b.Member().0
    ensures x.With(a).With(b) == x.With(b)
  {
  }

  /** Setters of two different `TimestampFilterItem` fields accumulate, in either order. */
  lemma TimestampSettersCommute(x: QF.TimestampFilterItem, a: QF.TimestampOp, b: QF.TimestampOp)
    requires a.Member().0 != b.Member().0
    ensures x.With(a).With(b) == x.With(b).With(a)
  {
  }

  /** The first setter on a default `TimestampFilterItem` gives the one-field record of the newer builder. */
  lemma TimestampFirstSetter(op: QF.TimestampOp)
    ensures QF.TimestampFilterItem.Default.With(op) == QF.TimestampFilterItem.Of(op)
    ensures QF.TimestampFilterItem.Default.With(op).Members() == [op.Member()]
  {
  }

  /** Setting the same `IdFilterItem` field twice: the last value wins. */
  lemma IdLastWins(x: QF.IdFilterItem, a: QF.IdOp, b: QF.IdOp)
    requires a.Member().0 == b.Member().0
    ensures x.With(a).With(b) == x.With(b)
  {
  }

  /** Setters of two different `IdFilterItem` fields accumulate, in either order. */
  lemma IdSettersCommute(x: QF.IdFilterItem, a: QF.IdOp, b: QF.IdOp)
    requires a.Member().0 != b.Member().0
    ensures x.With(a).With(b) == x.With(b).With(a)
  {
  }

  /** The first setter on a default `IdFilterItem` gives the one-field record of the newer builder. */
  lemma IdFirstSetter(op: QF.IdOp)
    ensures QF.IdFilterItem.Default.With(op) == QF.IdFilterItem.Of(op)
    ensures QF.IdFilterItem.Default.With(op).Members() == [op.Member()]
  {
  }

  // ------------------------------------------------------------ DatabaseFilterItems

  /** The predicate record of a leaf node, tagged with its kind. */
  datatype Predicate =
    | Checkbox(checkbox: QF.CheckboxFilterItem)
    | Date(date: QF.DateFilterItem)
    | Files(files: QF.FilesFilterItem)
    | Formula(formula: QF.FormulaFilterItem)
    | MultiSelect(multiSelect: QF.MultiSelectFilterItem)
    | Number(number: QF.NumberFilterItem)
    | People(people: QF.PeopleFilterItem)
    | Relation(relation: QF.RelationFilterItem)
    | RichText(richText: QF.RichTextFilterItem)
    | Select(select: QF.SelectFilterItem)
    | Status(status: QF.StatusFilterItem)
    | Timestamp(timestamp: QF.TimestampFilterItem)
    | Id(id: QF.IdFilterItem)
  {
    /** The key the record is serialised under. */
    function Key(): string
    {
      match this
      case Checkbox(_) => "checkbox"
      case Date(_) => "date"
      case Files(_) => "files"
      case Formula(_) => "formula"
      case MultiSelect(_) => "multi_select"
      case Number(_) => "number"
      case People(_) => "people"
      case Relation(_) => "relation"
      case RichText(_) => "rich_text"
      case Select(_) => "select"
      case Status(_) => "status"
      case Timestamp(_) => "timestamp"
      case Id(_) => "id"
    }

    /** The serialised record. */
    function ItemJson(): Json
    {
      match this
      case Checkbox(item) => item.ToJson()
      case Date(item) => item.ToJson()
      case Files(item) => item.ToJson()
      case Formula(item) => item.ToJson()
      case MultiSelect(item) => item.ToJson()
      case Number(item) => item.ToJson()
      case People(item) => item.ToJson()
      case Relation(item) => item.ToJson()
      case RichText(item) => item.ToJson()
      case Select(item) => item.ToJson()
      case Status(item) => item.ToJson()
      case Timestamp(item) => item.ToJson()
      case Id(item) => item.ToJson()
    }
  }

  /** How many of the thirteen predicate fields of a node are set. */
  function KindsSet(x: QF.FilterItem): nat
  {
    (if x.checkbox.Some? then 1 else 0)
    + (if x.date.Some? then 1 else 0)
    + (if x.files.Some? then 1 else 0)
    + (if x.formula.Some? then 1 else 0)
    + (if x.multiSelect.Some? then 1 else 0)
    + (if x.number.Some? then 1 else 0)
    + (if x.people.Some? then 1 else 0)
    + (if x.relation.Some? then 1 else 0)
    + (if x.richText.Some? then 1 else 0)
    + (if x.select.Some? then 1 else 0)
    + (if x.status.Some? then 1 else 0)
    + (if x.timestamp.Some? then 1 else 0)
    + (if x.id.Some? then 1 else 0)
  }

  /** The field of `x` for the kind of `p` holds exactly the record `p` carries. */
  predicate Holds(x: QF.FilterItem, p: Predicate)
  {
    match p
    case Checkbox(item) => x.checkbox == Some(item)
    case Date(item) => x.date == Some(item)
    case Files(item) => x.files == Some(item)
    case Formula(item) => x.formula == Some(item)
    case MultiSelect(item) => x.multiSelect == Some(item)
    case Number(item) => x.number == Some(item)
    case People(item) => x.people == Some(item)
    case Relation(item) => x.relation == Some(item)
    case RichText(item) => x.richText == Some(item)
    case Select(item) => x.select == Some(item)
    case Status(item) => x.status == Some(item)
    case Timestamp(item) => x.timestamp == Some(item)
    case Id(item) => x.id == Some(item)
  }

  /**
   * The `DatabaseFilterItems::<kind>(property, item)` constructors: the
   * property and exactly one predicate field, no child list.
   */
  function Leaf(property: string, p: Predicate): (r: QF.FilterItem)
    ensures r.property == property && r.andItems.NoChildren? && r.orItems.NoChildren?
    ensures KindsSet(r) == 1 && Holds(r, p)
    ensures r.ToJson() == JObj(NonEmptyStr("property", property) + [(p.Key(), p.ItemJson())])
  {
    match p
    case Checkbox(item) => QF.FilterItem.Checkbox(property, item)
    case Date(item) => QF.FilterItem.Date(property, item)
    case Files(item) => QF.FilterItem.Files(property, item)
    case Formula(item) => QF.FilterItem.Formula(property, item)
    case MultiSelect(item) => QF.FilterItem.MultiSelect(property, item)
    case Number(item) => QF.FilterItem.Number(property, item)
    case People(item) => QF.FilterItem.People(property, item)
    case Relation(item) => QF.FilterItem.Relation(property, item)
    case RichText(item) => QF.FilterItem.RichText(property, item)
    case Select(item) => QF.FilterItem.Select(property, item)
    case Status(item) => QF.FilterItem.Status(property, item)
    case Timestamp(item) => QF.FilterItem.Timestamp(property, item)
    case Id(item) => QF.FilterItem.Id(property, item)
  }

  // ------------------------------------------------------------ DatabaseFilter

  /** The request body: the filter and nothing else (this builder has no cursor). */
  function Body(filter: QF.FilterItem): (j: Json)
    ensures j.JObj? && Textual(j) && |j.members| == 1
    ensures j.members[0] == ("filter", filter.ToJson())
    ensures j == QF.QueryBody(filter, "")
  {
    QF.FilterItemTextual(filter);
    JObj(Field("filter", filter.ToJson()))
  }

  /** `DatabaseFilter`: a filter tree. */
  class DatabaseFilter {
    var filter: QF.FilterItem

    /** `DatabaseFilter::new`: the default tree. */
    constructor ()
      ensures filter == QF.FilterItem.Default
    {
      filter := QF.FilterItem.Default;
    }

    /** `DatabaseFilter::args`: the whole tree is replaced. */
    method Args(item: QF.FilterItem)
      modifies this
      ensures filter == item
    {
      filter := item;
    }

    /** `DatabaseFilter::and`: only the tree's `and` list is assigned. */
    method And(items: seq<QF.FilterItem>)
      modifies this
      ensures filter == old(filter).(andItems := QF.Children(items))
    {
      filter := filter.(andItems := QF.Children(items));
    }

    /** `DatabaseFilter::or`: only the tree's `or` list is assigned. */
    method Or(items: seq<QF.FilterItem>)
      modifies this
      ensures filter == old(filter).(orItems := QF.Children(items))
    {
      filter := filter.(orItems := QF.Children(items));
    }

    /** `DatabaseFilter::build`: `{"filter":…}`, the same text as a query filter without a cursor. */
    method Build() returns (s: string)
      ensures s == Render(Body(filter))
      ensures s == "{\"filter\":" + QF.FilterText(filter) + "}"
    {
      QF.QueryBodyText(filter, "");
      s := Render(Body(filter));
    }
  }
}
