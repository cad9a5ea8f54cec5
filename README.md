# rs-notion-tools in Dafny

A model of the request-building core of `notion-tools`, a Rust client for the
Notion API, with proofs about it. The model covers:

- the **query filter**: thirteen predicate records (checkbox, date, files,
  formula, multi-select, number, people, relation, rich text, select, status,
  timestamp, unique id) and the recursive `FilterItem` tree that combines
  them under `and`/`or`;
- the `QueryFilter` builder. It owns a tree and a start cursor and builds the
  compact JSON body of a database query. Also modelled: the pagination loop
  that the module documentation recommends;
- the older **database filter**. Its predicate setters mutate the record they
  are called on and return a copy, so settings accumulate. Its `DatabaseFilter`
  builder emits a body without a cursor;
- **blocks**: the default block, the twenty-eight `Block::*` constructors, the
  rules for which block fields are serialised, and the append request and
  response;
- **pages**: the `PageProperty` constructors, the default page,
  `Page::from_properties` and what a page serialises;
- the **common records**: `Parent::from`, the wire names of `ParentType` and
  `Color` with their decoders, the rich-text constructors and `Icon::from_str`;
- the **database schema**: the emptiness tests of the property settings, the
  omission of empty settings, and the response fields a database never
  serialises;
- the **database property values** of `database_properties.rs`, with their
  constructors;
- the **`Notion` client**: its database id, the status normalisation of every
  endpoint, page archiving, and `append_block_children`. The latter sends the
  blocks in slices of at most one hundred.

## Modules and shape

| file | module | models |
|---|---|---|
| `wrappers.dfy` | `Wrappers` | `Option`, `Result` |
| `json.dfy` | `Json` | a JSON value (objects keep member order, hash maps are unordered), compact rendering, the fixed-width integer types `uint32` and `uint128` |
| `common.dfy` | `Common` | `structs/common.rs` |
| `query_filter.dfy` | `QueryFilter` | `structs/query_filter.rs` and the unit test of `structs/tests.rs` |
| `database_filter.dfy` | `DatabaseFilter` | `structs/database_filter.rs` |
| `block.dfy` | `Blocks` | `structs/block.rs` |
| `page.dfy` | `Pages` | `structs/page.rs` |
| `database.dfy` | `DatabaseSchema` | `structs/database.rs` |
| `database_properties.dfy` | `DatabaseProperties` | `structs/database_properties.rs` |
| `client.dfy` | `Client` | `lib.rs` |

Records the source only builds are datatypes, and their constructors are
functions. Where the source assigns fields step by step, the model is a method
with the same steps:

- the `RichText` constructors;
- the `PageProperty` and `DatabaseProperty` constructors, including the loops
  that push into a vector;
- `Page::from_properties`.

State the source changes in place lives in classes:

- the `QueryFilter` and `DatabaseFilter` builders;
- the thirteen predicate records of the older filter;
- the `Notion` client.

Serialisation is a function into the `Json` datatype. Its member order is the
field order of the Rust struct, and it omits fields the way the serde
attributes direct.

Each HTTP round trip becomes a function parameter of the method that makes
it. The parameter maps what the request carries to the decoded reply, or to
the error that `?` propagates. A round trip consists of serialising the body,
sending it, reading the text and decoding it.

## Model

| member | source | states |
|---|---|---|
| Common.ColorFromName | notion-tools/src/structs/common.rs:3-44 | decoding a wire name gives back a colour only if that colour's name is the input |
| Common.ColorRoundTrip | notion-tools/src/structs/common.rs:3-44 | every one of the 19 colours decodes back from its serde name |
| Common.ColorNameInjective | notion-tools/src/structs/common.rs:3-44 | no two colours share a wire name |
| Common.ParentTypeFromName | notion-tools/src/structs/common.rs:151-161 | decoding a parent-type name gives back a type only if that type's name is the input |
| Common.ParentTypeRoundTrip | notion-tools/src/structs/common.rs:151-167 | `database_id`/`page_id`/`workspace_id`/`block_id` decode back to their type and are pairwise distinct |
| Common.ParentFrom | notion-tools/src/structs/common.rs:183-235 | `Parent::from(t, id)` has type `t`, the id field matching `t` set to `id`, and the other three `None` |
| Common.ParentIdsOmittedWhenNone | notion-tools/src/structs/common.rs:169-181 | a parent's id key is serialised exactly when that id is present |
| Common.ParentFromJson | notion-tools/src/structs/common.rs:169-235 | a parent built by `from` serialises to `type` plus the one id under the key named by the type |
| Common.IconFromStr | notion-tools/src/structs/common.rs:52-58 | the icon serialises to exactly `{"emoji": e}` |
| Common.SelectOptionIgnoresIdAndColor | notion-tools/src/structs/common.rs:111-119 | `id` and `color` are never serialised; options with the same name serialise identically |
| Common.FileCaptionOmittedWhenEmpty | notion-tools/src/structs/common.rs:79-89 | `caption` is serialised exactly when it is non-empty |
| Common.DefaultAnnotations | notion-tools/src/structs/common.rs:263-275 | all five flags are false and the colour is the wire name of the default colour |
| Common.DefaultRichText | notion-tools/src/structs/common.rs:291-305 | type "text", empty content and plain text, no link, no href, default annotations |
| Common.FromStr | notion-tools/src/structs/common.rs:308-318 | the default rich text with `text.content` and `plain_text` both set to the value and nothing else changed |
| Common.FromStrWithAnnotations | notion-tools/src/structs/common.rs:320-343 | the default rich text with the content and each annotation set by name and nothing else changed (`plain_text` stays empty) |
| Common.RichTextFromStr | notion-tools/src/structs/common.rs:308-318 | the step-by-step assignments give `FromStr(value)`: content and plain text are the value |
| Common.RichTextFromStrWithAnnotations | notion-tools/src/structs/common.rs:320-343 | the step-by-step assignments give `FromStrWithAnnotations(…)`, whose plain text is empty |
| Common.FromStrVersusAnnotated | notion-tools/src/structs/common.rs:307-343 | with default annotations the two constructors differ only in `plain_text`, and they really differ for a non-empty value |
| Common.FromStrs | notion-tools/src/structs/block.rs:514-530 | the `iter().map(RichText::from_str)` lists: one rich text per input string, same length and order |
| QueryFilter.CheckboxFilterItem.Of | notion-tools/src/structs/query_filter.rs:81-95 | each constructor serialises exactly one member: the operator's key with `true` |
| QueryFilter.DateFilterItem.Of | notion-tools/src/structs/query_filter.rs:115-164 | each constructor sets only its operator's field: exactly one serialised member, the operator's key with its value |
| QueryFilter.FilesFilterItem.Of | notion-tools/src/structs/query_filter.rs:174-188 | `is_empty`/`is_not_empty` set only their own field to `true` |
| QueryFilter.FormulaFilterItem.Of | notion-tools/src/structs/query_filter.rs:202-230 | each constructor sets only its nested predicate (checkbox, date, number, string) |
| QueryFilter.MultiSelectFilterItem.Of | notion-tools/src/structs/query_filter.rs:244-272 | each constructor sets only its operator's field |
| QueryFilter.NumberFilterItem.Of | notion-tools/src/structs/query_filter.rs:294-350 | each constructor sets only its operator's field, e.g. `greater_than(v)` is exactly `{"greater_than": v}` |
| QueryFilter.PeopleFilterItem.Of | notion-tools/src/structs/query_filter.rs:364-392 | each constructor sets only its operator's field |
| QueryFilter.RelationFilterItem.Of | notion-tools/src/structs/query_filter.rs:406-434 | each constructor sets only its operator's field |
| QueryFilter.RichTextFilterItem.Of | notion-tools/src/structs/query_filter.rs:456-512 | each constructor sets only its operator's field |
| QueryFilter.SelectFilterItem.Of | notion-tools/src/structs/query_filter.rs:526-554 | each constructor sets only its operator's field |
| QueryFilter.StatusFilterItem.Of | notion-tools/src/structs/query_filter.rs:568-596 | each constructor sets only its operator's field |
| QueryFilter.TimestampFilterItem.Of | notion-tools/src/structs/query_filter.rs:608-629 | each constructor sets only its own field |
| QueryFilter.IdFilterItem.Of | notion-tools/src/structs/query_filter.rs:647-689 | each constructor sets only its operator's field |
| QueryFilter.Children.ToJson | notion-tools/src/structs/query_filter.rs:691-725 | a child list serialises to an array with one element per child, in order |
| QueryFilter.Children.Member | notion-tools/src/structs/query_filter.rs:695-698 | `and`/`or` are emitted exactly when the list is present, even when it is empty |
| QueryFilter.FilterItem.LeafMembers | notion-tools/src/structs/query_filter.rs:699-724 | no predicate member is keyed `property`, `and` or `or`, and every one has a textual form |
| QueryFilter.FilterItem.And | notion-tools/src/structs/query_filter.rs:728-734 | the node serialises to exactly `{"and": [children in order]}` |
| QueryFilter.FilterItem.Or | notion-tools/src/structs/query_filter.rs:735-741 | the node serialises to exactly `{"or": [children in order]}` |
| QueryFilter.FilterItem.Checkbox | notion-tools/src/structs/query_filter.rs:742-749 | the node serialises to the property (when non-empty) and the `checkbox` predicate, nothing else |
| QueryFilter.FilterItem.Date | notion-tools/src/structs/query_filter.rs:750-757 | the property and the `date` predicate, nothing else |
| QueryFilter.FilterItem.Files | notion-tools/src/structs/query_filter.rs:758-765 | the property and the `files` predicate, nothing else |
| QueryFilter.FilterItem.Formula | notion-tools/src/structs/query_filter.rs:766-773 | the property and the `formula` predicate, nothing else |
| QueryFilter.FilterItem.MultiSelect | notion-tools/src/structs/query_filter.rs:774-781 | the property and the `multi_select` predicate, nothing else |
| QueryFilter.FilterItem.Number | notion-tools/src/structs/query_filter.rs:782-789 | the property and the `number` predicate, nothing else |
| QueryFilter.FilterItem.People | notion-tools/src/structs/query_filter.rs:790-797 | the property and the `people` predicate, nothing else |
| QueryFilter.FilterItem.Relation | notion-tools/src/structs/query_filter.rs:798-805 | the property and the `relation` predicate, nothing else |
| QueryFilter.FilterItem.RichText | notion-tools/src/structs/query_filter.rs:806-813 | the property and the `rich_text` predicate, nothing else |
| QueryFilter.FilterItem.Select | notion-tools/src/structs/query_filter.rs:814-821 | the property and the `select` predicate, nothing else |
| QueryFilter.FilterItem.Status | notion-tools/src/structs/query_filter.rs:822-829 | the property and the `status` predicate, nothing else |
| QueryFilter.FilterItem.Timestamp | notion-tools/src/structs/query_filter.rs:830-837 | the property and the `timestamp` predicate, nothing else |
| QueryFilter.FilterItem.Id | notion-tools/src/structs/query_filter.rs:838-844 | the property and the `id` predicate, nothing else |
| QueryFilter.FilterItemTextual | notion-tools/src/structs/query_filter.rs:691-725 | every filter tree, at any depth, serialises without floats or hash maps, so it has one compact text |
| QueryFilter.ChildrenTextual | notion-tools/src/structs/query_filter.rs:695-698 | every `and`/`or` child list, at any depth, serialises to an array of textual values |
| QueryFilter.DefaultFilterItemIsEmpty | notion-tools/src/structs/query_filter.rs:691-725 | the default node serialises to `{}` |
| QueryFilter.HeadKeysOmitted | notion-tools/src/structs/query_filter.rs:692-698 | `property` is emitted iff non-empty; `and`/`or` iff their list is present |
| QueryFilter.QueryBody | notion-tools/src/structs/query_filter.rs:847-852 | `filter` is always the first member; `start_cursor` follows exactly when it is non-empty |
| QueryFilter.QueryBodyText | notion-tools/src/structs/query_filter.rs:847-852 | the text is `{"filter":…}`, with `,"start_cursor":"…"` only for a non-empty cursor |
| QueryFilter.QueryFilter.constructor | notion-tools/src/structs/query_filter.rs:855-860 | a new builder holds the default tree and an empty cursor |
| QueryFilter.QueryFilter.Args | notion-tools/src/structs/query_filter.rs:862-864 | the whole tree is replaced; the cursor is kept |
| QueryFilter.QueryFilter.And | notion-tools/src/structs/query_filter.rs:866-868 | only the tree's `and` list is assigned; the property, leaves, `or` and cursor are kept |
| QueryFilter.QueryFilter.Or | notion-tools/src/structs/query_filter.rs:870-872 | only the tree's `or` list is assigned; everything else is kept |
| QueryFilter.QueryFilter.Build | notion-tools/src/structs/query_filter.rs:874-876 | the result is the rendered query body: `{"filter":…}` plus the cursor when it is non-empty |
| QueryFilter.CursorsSent | notion-tools/src/structs/query_filter.rs:49-67 | the loop sends at most one request per reply, and the first request carries the starting cursor |
| QueryFilter.CursorChaining | notion-tools/src/structs/query_filter.rs:49-67 | after a reply with `has_more`, the next request carries that reply's `next_cursor` (or `""`); after a failed reply it repeats the cursor |
| QueryFilter.StopsAtLastPage | notion-tools/src/structs/query_filter.rs:49-67 | the loop continues past every reply except a successful one without `has_more`, and stops right after that one |
| QueryFilter.ThreePages | notion-tools/src/structs/query_filter.rs:49-67 | three pages are fetched with the cursors `""`, `c1`, `c2` |
| QueryFilter.Paginate | notion-tools/src/structs/query_filter.rs:49-67 | the loop, run on the builder, sends exactly the cursors `CursorsSent` describes and leaves the filter tree untouched |
| QueryFilter.BuildTestFilter | notion-tools/src/structs/tests.rs:7-24 | the unit test's nested `or(checkbox, date, and(select, rich_text))` builds to exactly the asserted text |
| QueryFilter.TestFilterRenders | notion-tools/src/structs/tests.rs:7-24 | the unit test's tree renders to the expected text, assembled from its leaves |
| QueryFilter.TestLeavesRender | notion-tools/src/structs/tests.rs:7-24 | each of the four leaves of the unit test renders to its own expected text |
| QueryFilter.AndOfTwoRenders | notion-tools/src/structs/query_filter.rs:728-734 | an `and` node over two children renders as `{"and":[a,b]}` |
| QueryFilter.OrOfThreeRenders | notion-tools/src/structs/query_filter.rs:735-741 | an `or` node over three children renders as `{"or":[a,b,c]}` |
| QueryFilter.LeafRenders | notion-tools/src/structs/query_filter.rs:742-844 | a leaf with one operator renders as `{"property":p,"<kind>":{"<op>":v}}` |
| DatabaseFilter.CheckboxFilterItem.constructor | notion-tools/src/structs/database_filter.rs:3-9 | a new record has every field `None` |
| DatabaseFilter.DateFilterItem.constructor | notion-tools/src/structs/database_filter.rs:23-39 | a new record has every field `None` |
| DatabaseFilter.FilesFilterItem.constructor | notion-tools/src/structs/database_filter.rs:78-84 | a new record has every field `None` |
| DatabaseFilter.FormulaFilterItem.constructor | notion-tools/src/structs/database_filter.rs:98-108 | a new record has every field `None` |
| DatabaseFilter.MultiSelectFilterItem.constructor | notion-tools/src/structs/database_filter.rs:132-142 | a new record has every field `None` |
| DatabaseFilter.NumberFilterItem.constructor | notion-tools/src/structs/database_filter.rs:166-184 | a new record has every field `None` |
| DatabaseFilter.PeopleFilterItem.constructor | notion-tools/src/structs/database_filter.rs:228-238 | a new record has every field `None` |
| DatabaseFilter.RelationFilterItem.constructor | notion-tools/src/structs/database_filter.rs:262-272 | a new record has every field `None` |
| DatabaseFilter.RichTextFilterItem.constructor | notion-tools/src/structs/database_filter.rs:296-314 | a new record has every field `None` |
| DatabaseFilter.SelectFilterItem.constructor | notion-tools/src/structs/database_filter.rs:358-368 | a new record has every field `None` |
| DatabaseFilter.StatusFilterItem.constructor | notion-tools/src/structs/database_filter.rs:392-402 | a new record has every field `None` |
| DatabaseFilter.TimestampFilterItem.constructor | notion-tools/src/structs/database_filter.rs:426-434 | a new record has every field `None` |
| DatabaseFilter.IdFilterItem.constructor | notion-tools/src/structs/database_filter.rs:453-467 | a new record has every field `None` |
| DatabaseFilter.CheckboxFilterItem.Apply | notion-tools/src/structs/database_filter.rs:11-21 | the setter assigns its field on the receiver, keeps the others, and returns the new state |
| DatabaseFilter.DateFilterItem.Apply | notion-tools/src/structs/database_filter.rs:41-76 | the setter assigns its field on the receiver, keeps the others, and returns the new state |
| DatabaseFilter.FilesFilterItem.Apply | notion-tools/src/structs/database_filter.rs:86-96 | the setter assigns its field on the receiver, keeps the others, and returns the new state |
| DatabaseFilter.FormulaFilterItem.Apply | notion-tools/src/structs/database_filter.rs:110-130 | the setter assigns its field on the receiver, keeps the others, and returns the new state |
| DatabaseFilter.MultiSelectFilterItem.Apply | notion-tools/src/structs/database_filter.rs:144-164 | the setter assigns its field on the receiver, keeps the others, and returns the new state |
| DatabaseFilter.NumberFilterItem.Apply | notion-tools/src/structs/database_filter.rs:186-226 | the setter assigns its field on the receiver, keeps the others, and returns the new state |
| DatabaseFilter.PeopleFilterItem.Apply | notion-tools/src/structs/database_filter.rs:240-260 | the setter assigns its field on the receiver, keeps the others, and returns the new state |
| DatabaseFilter.RelationFilterItem.Apply | notion-tools/src/structs/database_filter.rs:274-294 | the setter assigns its field on the receiver, keeps the others, and returns the new state |
| DatabaseFilter.RichTextFilterItem.Apply | notion-tools/src/structs/database_filter.rs:316-356 | the setter assigns its field on the receiver, keeps the others, and returns the new state |
| DatabaseFilter.SelectFilterItem.Apply | notion-tools/src/structs/database_filter.rs:370-390 | the setter assigns its field on the receiver, keeps the others, and returns the new state |
| DatabaseFilter.StatusFilterItem.Apply | notion-tools/src/structs/database_filter.rs:404-424 | the setter assigns its field on the receiver, keeps the others, and returns the new state |
| DatabaseFilter.TimestampFilterItem.Apply | notion-tools/src/structs/database_filter.rs:436-451 | the setter assigns its field on the receiver, keeps the others, and returns the new state |
| DatabaseFilter.IdFilterItem.Apply | notion-tools/src/structs/database_filter.rs:469-499 | the setter assigns its field on the receiver, keeps the others, and returns the new state |
| DatabaseFilter.CheckboxLastWins | notion-tools/src/structs/database_filter.rs:11-21 | setting the same field twice keeps the last value |
| DatabaseFilter.CheckboxSettersCommute | notion-tools/src/structs/database_filter.rs:11-21 | setters of different fields accumulate, in either order |
| DatabaseFilter.CheckboxFirstSetter | notion-tools/src/structs/database_filter.rs:11-21 | one setter on a default record gives the newer builder's one-field record |
| DatabaseFilter.DateLastWins | notion-tools/src/structs/database_filter.rs:41-76 | setting the same field twice keeps the last value |
| DatabaseFilter.DateSettersCommute | notion-tools/src/structs/database_filter.rs:41-76 | setters of different fields accumulate, in either order |
| DatabaseFilter.DateFirstSetter | notion-tools/src/structs/database_filter.rs:41-76 | one setter on a default record gives the newer builder's one-field record |
| DatabaseFilter.FilesLastWins | notion-tools/src/structs/database_filter.rs:86-96 | setting the same field twice keeps the last value |
| DatabaseFilter.FilesSettersCommute | notion-tools/src/structs/database_filter.rs:86-96 | setters of different fields accumulate, in either order |
| DatabaseFilter.FilesFirstSetter | notion-tools/src/structs/database_filter.rs:86-96 | one setter on a default record gives the newer builder's one-field record |
| DatabaseFilter.FormulaLastWins | notion-tools/src/structs/database_filter.rs:110-130 | setting the same field twice keeps the last value |
| DatabaseFilter.FormulaSettersCommute | notion-tools/src/structs/database_filter.rs:110-130 | setters of different fields accumulate, in either order |
| DatabaseFilter.FormulaFirstSetter | notion-tools/src/structs/database_filter.rs:110-130 | one setter on a default record gives the newer builder's one-field record |
| DatabaseFilter.MultiSelectLastWins | notion-tools/src/structs/database_filter.rs:144-164 | setting the same field twice keeps the last value |
| DatabaseFilter.MultiSelectSettersCommute | notion-tools/src/structs/database_filter.rs:144-164 | setters of different fields accumulate, in either order |
| DatabaseFilter.MultiSelectFirstSetter | notion-tools/src/structs/database_filter.rs:144-164 | one setter on a default record gives the newer builder's one-field record |
| DatabaseFilter.NumberLastWins | notion-tools/src/structs/database_filter.rs:186-226 | setting the same field twice keeps the last value |
| DatabaseFilter.NumberSettersCommute | notion-tools/src/structs/database_filter.rs:186-226 | setters of different fields accumulate, in either order |
| DatabaseFilter.NumberFirstSetter | notion-tools/src/structs/database_filter.rs:186-226 | one setter on a default record gives the newer builder's one-field record |
| DatabaseFilter.PeopleLastWins | notion-tools/src/structs/database_filter.rs:240-260 | setting the same field twice keeps the last value |
| DatabaseFilter.PeopleSettersCommute | notion-tools/src/structs/database_filter.rs:240-260 | setters of different fields accumulate, in either order |
| DatabaseFilter.PeopleFirstSetter | notion-tools/src/structs/database_filter.rs:240-260 | one setter on a default record gives the newer builder's one-field record |
| DatabaseFilter.RelationLastWins | notion-tools/src/structs/database_filter.rs:274-294 | setting the same field twice keeps the last value |
| DatabaseFilter.RelationSettersCommute | notion-tools/src/structs/database_filter.rs:274-294 | setters of different fields accumulate, in either order |
| DatabaseFilter.RelationFirstSetter | notion-tools/src/structs/database_filter.rs:274-294 | one setter on a default record gives the newer builder's one-field record |
| DatabaseFilter.RichTextLastWins | notion-tools/src/structs/database_filter.rs:316-356 | setting the same field twice keeps the last value |
| DatabaseFilter.RichTextSettersCommute | notion-tools/src/structs/database_filter.rs:316-356 | setters of different fields accumulate, in either order |
| DatabaseFilter.RichTextFirstSetter | notion-tools/src/structs/database_filter.rs:316-356 | one setter on a default record gives the newer builder's one-field record |
| DatabaseFilter.SelectLastWins | notion-tools/src/structs/database_filter.rs:370-390 | setting the same field twice keeps the last value |
| DatabaseFilter.SelectSettersCommute | notion-tools/src/structs/database_filter.rs:370-390 | setters of different fields accumulate, in either order |
| DatabaseFilter.SelectFirstSetter | notion-tools/src/structs/database_filter.rs:370-390 | one setter on a default record gives the newer builder's one-field record |
| DatabaseFilter.StatusLastWins | notion-tools/src/structs/database_filter.rs:404-424 | setting the same field twice keeps the last value |
| DatabaseFilter.StatusSettersCommute | notion-tools/src/structs/database_filter.rs:404-424 | setters of different fields accumulate, in either order |
| DatabaseFilter.StatusFirstSetter | notion-tools/src/structs/database_filter.rs:404-424 | one setter on a default record gives the newer builder's one-field record |
| DatabaseFilter.TimestampLastWins | notion-tools/src/structs/database_filter.rs:436-451 | setting the same field twice keeps the last value |
| DatabaseFilter.TimestampSettersCommute | notion-tools/src/structs/database_filter.rs:436-451 | setters of different fields accumulate, in either order |
| DatabaseFilter.TimestampFirstSetter | notion-tools/src/structs/database_filter.rs:436-451 | one setter on a default record gives the newer builder's one-field record |
| DatabaseFilter.IdLastWins | notion-tools/src/structs/database_filter.rs:469-499 | setting the same field twice keeps the last value |
| DatabaseFilter.IdSettersCommute | notion-tools/src/structs/database_filter.rs:469-499 | setters of different fields accumulate, in either order |
| DatabaseFilter.IdFirstSetter | notion-tools/src/structs/database_filter.rs:469-499 | one setter on a default record gives the newer builder's one-field record |
| DatabaseFilter.Leaf | notion-tools/src/structs/database_filter.rs:552-655 | a leaf constructor sets the property and the named kind's field to exactly the given record, no other predicate field and no child list; it serialises to the property (when non-empty) and that one kind's member |
| DatabaseFilter.Body | notion-tools/src/structs/database_filter.rs:657-684 | the body is `{"filter":…}` alone, the query filter's body without a cursor |
| DatabaseFilter.DatabaseFilter.constructor | notion-tools/src/structs/database_filter.rs:663-667 | a new builder holds the default tree |
| DatabaseFilter.DatabaseFilter.Args | notion-tools/src/structs/database_filter.rs:669-671 | the whole tree is replaced |
| DatabaseFilter.DatabaseFilter.And | notion-tools/src/structs/database_filter.rs:673-675 | only the tree's `and` list is assigned |
| DatabaseFilter.DatabaseFilter.Or | notion-tools/src/structs/database_filter.rs:677-679 | only the tree's `or` list is assigned |
| DatabaseFilter.DatabaseFilter.Build | notion-tools/src/structs/database_filter.rs:681-683 | the text is `{"filter":…}`, with no cursor |
| Blocks.Block.Bookmark | notion-tools/src/structs/block.rs:323-340 | tag "bookmark", only the bookmark payload, a one-element caption and the url; parent from `Parent::from`, base fields default |
| Blocks.Block.Breadcrumb | notion-tools/src/structs/block.rs:342-350 | tag "breadcrumb", only its payload, an empty map |
| Blocks.Block.BulletedListItem | notion-tools/src/structs/block.rs:352-372 | tag "bulleted_list_item", only its payload, one rich text per string in order, default colour, no children |
| Blocks.Block.Callout | notion-tools/src/structs/block.rs:374-394 | tag "callout", only its payload, a one-element text, the icon and the colour |
| Blocks.Block.ChildDatabase | notion-tools/src/structs/block.rs:396-407 | tag "child_database", only its payload, the title |
| Blocks.Block.ChildPage | notion-tools/src/structs/block.rs:409-420 | tag "child_page", only its payload, the title |
| Blocks.Block.Code | notion-tools/src/structs/block.rs:422-446 | tag "code", only its payload, a one-element caption, one rich text per string, the language |
| Blocks.Block.ColumnList | notion-tools/src/structs/block.rs:448-456 | tag "column_list", only its payload, an empty map |
| Blocks.Block.Column | notion-tools/src/structs/block.rs:458-466 | tag "column", only its payload, an empty map |
| Blocks.Block.Divider | notion-tools/src/structs/block.rs:468-476 | tag "divider", only its payload, an empty map |
| Blocks.Block.Embed | notion-tools/src/structs/block.rs:478-489 | tag "embed", only its payload, the url |
| Blocks.Block.Equation | notion-tools/src/structs/block.rs:491-502 | tag "equation", only its payload, the expression |
| Blocks.Block.File | notion-tools/src/structs/block.rs:504-512 | tag "file", only its payload, the default file |
| Blocks.Block.Heading1 | notion-tools/src/structs/block.rs:514-530 | tag "heading_1", only its payload, one rich text per string, default colour, not toggleable |
| Blocks.Block.Heading2 | notion-tools/src/structs/block.rs:532-548 | tag "heading_2", only its payload, one rich text per string, default colour, not toggleable |
| Blocks.Block.Heading3 | notion-tools/src/structs/block.rs:550-566 | tag "heading_3", only its payload, one rich text per string, default colour, not toggleable |
| Blocks.Block.Image | notion-tools/src/structs/block.rs:568-583 | tag "image", only its payload, inner type "external" and the url |
| Blocks.Block.LinkPreview | notion-tools/src/structs/block.rs:585-596 | tag "link_preview", only its payload, the url |
| Blocks.Block.NumberedListItem | notion-tools/src/structs/block.rs:598-618 | tag "numbered_list_item", only its payload, one rich text per string, default colour, no children |
| Blocks.Block.Paragraph | notion-tools/src/structs/block.rs:620-636 | tag "paragraph", only its payload, one rich text per string, default colour, no children |
| Blocks.Block.Pdf | notion-tools/src/structs/block.rs:638-653 | tag "pdf", only its payload, inner type "external" and the url |
| Blocks.Block.Quote | notion-tools/src/structs/block.rs:655-671 | tag "quote", only its payload, one rich text per string, default colour, no children |
| Blocks.Block.Table | notion-tools/src/structs/block.rs:673-681 | tag "table", only its payload, width 0 and no headers |
| Blocks.Block.TableRow | notion-tools/src/structs/block.rs:683-696 | tag "table_row", only its payload, one rich-text cell per string, in order |
| Blocks.Block.TableOfContents | notion-tools/src/structs/block.rs:698-706 | tag "table_of_contents", only its payload, default colour |
| Blocks.Block.ToDo | notion-tools/src/structs/block.rs:708-730 | tag "to_do", only its payload, one rich text per string, the `checked` flag, default colour, no children |
| Blocks.Block.ToggleBlocks | notion-tools/src/structs/block.rs:732-748 | tag "toggle" and the `toggle` payload only, one rich text per string |
| Blocks.Block.Video | notion-tools/src/structs/block.rs:750-765 | tag "video", only its payload, inner type "external" and the url |
| Blocks.PayloadMembers | notion-tools/src/structs/block.rs:213-265 | one serialised member per present payload; none is keyed like a base field |
| Blocks.SkippedBaseKeysAbsent | notion-tools/src/structs/block.rs:181-212 | `parent`, `id`, the times, the editors, `in_trash`, `has_children` and `is_togglable` are never serialised |
| Blocks.HeadKeysEmitted | notion-tools/src/structs/block.rs:181-212 | `archived` is serialised iff true; `object` and `type` always |
| Blocks.BlockJsonSize | notion-tools/src/structs/block.rs:181-266 | a block serialises `object`, `type`, `archived` when true, and one member per present payload |
| Blocks.ConstructedJson | notion-tools/src/structs/block.rs:322-766 | a constructed block serialises to exactly `"object":"block"`, its tag, and its one payload |
| Blocks.BlockBodyJson | notion-tools/src/structs/block.rs:782-786 | the append body is `{"children": [...]}`, with the blocks in order |
| Blocks.BlockResponseJson | notion-tools/src/structs/block.rs:768-780 | a response serialises `object` and `results` only |
| Blocks.ResponseIgnoresStatus | notion-tools/src/structs/block.rs:768-780 | `status`, `code` and `message` never reach the serialised response |
| Blocks.DefaultBlockIsEmpty | notion-tools/src/structs/block.rs:268-320 | the default block: kind "block", empty tag, a block-typed parent without ids, no payload, not archived; it serialises to object and type alone |
| Pages.PageProperty.Checkbox | notion-tools/src/structs/page.rs:79-83 | empty metadata and exactly one value field, `checkbox == Some(v)` |
| Pages.PageProperty.Date | notion-tools/src/structs/page.rs:85-91 | only `date`, whose start is the value |
| Pages.PageProperty.Email | notion-tools/src/structs/page.rs:93-99 | only `email`, holding the value |
| Pages.PageProperty.MultiSelect | notion-tools/src/structs/page.rs:101-113 | only `multi_select`: one option per name, in order, with empty id and the default colour |
| Pages.PageProperty.Number | notion-tools/src/structs/page.rs:115-119 | only `number`, holding the value |
| Pages.PageProperty.PhoneNumber | notion-tools/src/structs/page.rs:121-127 | only `phone_number`, holding the value |
| Pages.PageProperty.Relation | notion-tools/src/structs/page.rs:129-137 | only `relation`: one relation per id, in order, same length |
| Pages.PageProperty.RichText | notion-tools/src/structs/page.rs:139-143 | only `rich_text`, the list as given |
| Pages.PageProperty.Select | notion-tools/src/structs/page.rs:145-153 | only `select`: the name, empty id, default colour |
| Pages.PageProperty.Status | notion-tools/src/structs/page.rs:155-162 | only `status`: the name, empty id, default colour |
| Pages.PageProperty.Title | notion-tools/src/structs/page.rs:164-168 | only `title`, a one-element list |
| Pages.PageProperty.Url | notion-tools/src/structs/page.rs:169-173 | only `url`, holding the value |
| Pages.ValueMembers | notion-tools/src/structs/page.rs:24-76 | one serialised member per present value field; no metadata key among them |
| Pages.MetadataNeverSerialised | notion-tools/src/structs/page.rs:24-76 | id, name, type, creator, editor and times are never serialised |
| Pages.PagePropertyJsonSize | notion-tools/src/structs/page.rs:24-76 | `None` values are omitted, so a constructed property serialises one member |
| Pages.DefaultPropertyIsEmpty | notion-tools/src/structs/page.rs:24-76 | the default property serialises to `{}` |
| Pages.Page.FromProperties | notion-tools/src/structs/page.rs:243-247 | the default page with only `properties` replaced |
| Pages.PageJson | notion-tools/src/structs/page.rs:176-210 | a page serialises `parent`, `properties`, and `archived` only when it is true |
| Pages.PageJsonIgnoresOtherFields | notion-tools/src/structs/page.rs:176-210 | pages that agree on parent, properties and `archived` serialise identically |
| Pages.DefaultPageFields | notion-tools/src/structs/page.rs:212-240 | status 200, kind and type "page", a database parent without ids, not archived, no `has_more`, no cursor |
| Pages.PageResponseIgnoresStatus | notion-tools/src/structs/page.rs:250-262 | `status`, `code` and `message` never reach the serialised response |
| DatabaseSchema.SettingFromName | notion-tools/src/structs/database.rs:115-223 | decoding a settings key gives a setting only if that setting's key is the input |
| DatabaseSchema.SettingNameRoundTrip | notion-tools/src/structs/database.rs:115-223 | every setting decodes back from its key, so the twenty keys are distinct |
| DatabaseSchema.SettingNameNotAName | notion-tools/src/structs/database.rs:115-223 | no settings key collides with `id`, `name` or `type` |
| DatabaseSchema.SettingMember | notion-tools/src/structs/database.rs:115-223 | a setting contributes a member, under its key, exactly when its emptiness test fails |
| DatabaseSchema.DatabasePropertyJson | notion-tools/src/structs/database.rs:115-223 | `id`, `name` and `type` are the first three members |
| DatabaseSchema.SettingMembersEmit | notion-tools/src/structs/database.rs:115-223 | a setting's key is among the serialised settings iff it is one of those listed and not empty |
| DatabaseSchema.SettingMembersAgree | notion-tools/src/structs/database.rs:115-223 | settings that agree one by one serialise identically |
| DatabaseSchema.EmptySettingsOmitted | notion-tools/src/structs/database.rs:115-223 | settings that are all empty contribute nothing |
| DatabaseSchema.NamesAlwaysEmitted | notion-tools/src/structs/database.rs:115-223 | `id`, `name` and `type` are always serialised |
| DatabaseSchema.EmitsIffSettingMember | notion-tools/src/structs/database.rs:115-223 | past the three names, a key is serialised exactly when a setting member carries it |
| DatabaseSchema.SettingEmittedIffNotEmpty | notion-tools/src/structs/database.rs:25-223 | each of the twenty settings is serialised iff its emptiness test (empty map, empty key field, empty options) fails |
| DatabaseSchema.AllEmptySettingsOmitted | notion-tools/src/structs/database.rs:115-223 | with every setting empty, only `id`, `name` and `type` are serialised |
| DatabaseSchema.DefaultSettingEmpty | notion-tools/src/structs/database.rs:25-113 | every setting of the default property is empty |
| DatabaseSchema.DefaultPropertyJson | notion-tools/src/structs/database.rs:115-223 | the default property serialises to empty `id`, `name` and `type` and nothing else |
| DatabaseSchema.RelationClearedMembers | notion-tools/src/structs/database.rs:65-69 | a relation without `database_id` contributes the same members as an all-empty relation |
| DatabaseSchema.RelationDroppedWithoutDatabaseId | notion-tools/src/structs/database.rs:188-192 | a relation with empty `database_id` is not serialised, whatever its synced fields hold |
| DatabaseSchema.RelationSyncedFieldsIgnored | notion-tools/src/structs/database.rs:56-69 | with `database_id` empty, the synced fields never reach the output |
| DatabaseSchema.RollupClearedMembers | notion-tools/src/structs/database.rs:85-89 | a rollup without `rollup_property_id` contributes the same members as an all-empty rollup |
| DatabaseSchema.RollupDroppedWithoutPropertyId | notion-tools/src/structs/database.rs:85-89 | a rollup with empty `rollup_property_id` is not serialised, whatever its other fields hold |
| DatabaseSchema.RollupOtherFieldsIgnored | notion-tools/src/structs/database.rs:72-89 | with `rollup_property_id` empty, the other rollup fields never reach the output |
| DatabaseSchema.DatabaseJson | notion-tools/src/structs/database.rs:225-261 | a database serialises exactly its thirteen non-response keys, in field order |
| DatabaseSchema.DatabaseEmitsOnlyItsKeys | notion-tools/src/structs/database.rs:225-261 | no other key is ever serialised |
| DatabaseSchema.DatabaseIgnoresResponseFields | notion-tools/src/structs/database.rs:229-236 | databases that differ only in the response fields serialise identically |
| DatabaseSchema.ResponseFieldsNotSerialised | notion-tools/src/structs/database.rs:229-236 | `status`, `code`, `message` and `request_id` are never serialised |
| DatabaseProperties.SelectOptionIgnoresIdAndColor | notion-tools/src/structs/database_properties.rs:221-229 | `id` and `color` are never serialised; options with the same name serialise identically |
| DatabaseProperties.DatabaseProperty.Checkbox | notion-tools/src/structs/database_properties.rs:481-485 | empty metadata and exactly one value field, `checkbox == Some(v)` |
| DatabaseProperties.DatabaseProperty.Date | notion-tools/src/structs/database_properties.rs:487-493 | only `date`, whose start is the value |
| DatabaseProperties.DatabaseProperty.Email | notion-tools/src/structs/database_properties.rs:495-501 | only `email`, holding the value |
| DatabaseProperties.DatabaseProperty.MultiSelect | notion-tools/src/structs/database_properties.rs:503-515 | only `multi_select`: one option per name, in order, with empty id and empty colour |
| DatabaseProperties.DatabaseProperty.Number | notion-tools/src/structs/database_properties.rs:517-521 | only `number`, holding the value |
| DatabaseProperties.DatabaseProperty.PhoneNumber | notion-tools/src/structs/database_properties.rs:523-529 | only `phone_number`, holding the value |
| DatabaseProperties.DatabaseProperty.Relation | notion-tools/src/structs/database_properties.rs:531-539 | only `relation`: one relation per id, in order, same length |
| DatabaseProperties.DatabaseProperty.RichText | notion-tools/src/structs/database_properties.rs:541-545 | only `rich_text`, the list as given |
| DatabaseProperties.DatabaseProperty.Select | notion-tools/src/structs/database_properties.rs:547-555 | only `select`: the name, empty id, empty colour |
| DatabaseProperties.DatabaseProperty.Status | notion-tools/src/structs/database_properties.rs:557-565 | only `status`: the name, empty id, empty colour |
| DatabaseProperties.DatabaseProperty.Title | notion-tools/src/structs/database_properties.rs:566-570 | only `title`, a one-element list |
| DatabaseProperties.DatabaseProperty.Url | notion-tools/src/structs/database_properties.rs:571-575 | only `url`, holding the value |
| DatabaseProperties.ValueMembers | notion-tools/src/structs/database_properties.rs:426-478 | one serialised member per present value field; no metadata key among them |
| DatabaseProperties.MetadataNeverSerialised | notion-tools/src/structs/database_properties.rs:426-478 | id, name, type, creator, editor and times are never serialised |
| DatabaseProperties.PropertyJsonSize | notion-tools/src/structs/database_properties.rs:426-478 | `None` values are omitted, so a constructed property serialises one member |
| DatabaseProperties.DefaultPropertyIsEmpty | notion-tools/src/structs/database_properties.rs:426-478 | the default property serialises to `{}` |
| Client.NormalizedStatus | notion-tools/src/lib.rs:163-165 | a decoded status of 0 becomes 200, any other is kept; the result is never 0 |
| Client.NormalizedStatusIdempotent | notion-tools/src/lib.rs:163-165 | normalising twice is normalising once |
| Client.ArchivedPage | notion-tools/src/lib.rs:271-293 | archived, parent type as given, only the matching id set; otherwise the default page |
| Client.ArchivedPageJson | notion-tools/src/lib.rs:271-293 | an archive request is the parent, empty properties and `"archived":true` |
| Client.ChunksFromFlatten | notion-tools/src/lib.rs:315-319 | the slices from start index `i` on, concatenated, are the blocks from `i` on |
| Client.ChunksFlatten | notion-tools/src/lib.rs:315-319 | concatenating the request payloads in order gives back the input exactly |
| Client.ChunksFromSizes | notion-tools/src/lib.rs:315-319 | every payload holds between 1 and 100 blocks |
| Client.ChunksFromCount | notion-tools/src/lib.rs:315-319 | from index `i` there are ceil((len − i)/100) payloads |
| Client.ChunksFromAt | notion-tools/src/lib.rs:315-319 | payload `j` from index `i` is `blocks[i+100j..min(i+100j+100, len)]` |
| Client.ChunksShape | notion-tools/src/lib.rs:315-319 | ceil(len/100) requests; request `j` carries `blocks[100j..min(100j+100, len)]`, between 1 and 100 blocks |
| Client.SendFirstResults | notion-tools/src/lib.rs:313-333 | when every reply succeeds, the gathered results are the replies' results concatenated in request order |
| Client.RepliesAppend | notion-tools/src/lib.rs:332 | one more successful reply appends its results at the end |
| Client.SendFirstStopsAtError | notion-tools/src/lib.rs:320-331 | after the first failing request, the outcome is that failure whatever later replies would be; gathered results are dropped |
| Client.SendFirstDependsOnPrefix | notion-tools/src/lib.rs:313-333 | the outcome depends only on the replies to the requests actually sent |
| Client.AppendNothing | notion-tools/src/lib.rs:315-341 | with no blocks nothing is sent and the reply is an empty "list" with status 200 |
| Client.AppendSucceeds | notion-tools/src/lib.rs:335-341 | a successful append reports "list", status 200 and the concatenated results, whatever each reply's status |
| Client.Notion.constructor | notion-tools/src/lib.rs:129-138 | the key as given; the database id as given, or empty when unset |
| Client.Notion.Database | notion-tools/src/lib.rs:141-144 | only the database id is replaced |
| Client.Notion.RetrieveADatabase | notion-tools/src/lib.rs:149-168 | the decoded database of this client's id with its status normalised, or the transport/decoding error |
| Client.Notion.QueryDatabase | notion-tools/src/lib.rs:175-199 | the filter's built body is sent for this client's database; the reply comes back with its status normalised, or the error |
| Client.Notion.CreateAPage | notion-tools/src/lib.rs:206-226 | the serialised page is sent; the decoded page comes back with its status normalised, or the error |
| Client.Notion.UpdateAPage | notion-tools/src/lib.rs:234-254 | the serialised page is sent for `page_id`; the decoded page comes back with its status normalised, or the error |
| Client.Notion.ArchiveAPage | notion-tools/src/lib.rs:265-296 | an update of `page_id` with exactly the archived page for the given parent, with the update's outcome |
| Client.Notion.AppendBlockChildren | notion-tools/src/lib.rs:306-342 | the loop's outcome is the first failure, or "list"/200 with all results in request order, over the 100-block slices |

## Left out

- HTTP: the reqwest client, URLs, headers and `.await` are not modelled. Each round trip is a function parameter. The client is sequential, so there is no concurrency to model.
- Client.Notion.constructor: does not read `.env` or the process environment. The two variable values are parameters. The panic when `NOTION_API_KEY` is unset is not modelled; the key is simply given.
- JSON text: strings are rendered between quotes without escaping, and numbers are unbounded naturals in decimal. serde_json's escaping and number formatting are not modelled.
- Serialisation errors: `serde_json::to_string` on these records cannot fail, so its `?` is treated as infallible. Decoding is part of the transport parameter. Its errors are that parameter's `Err`.
- Floating point: every `f64` (page and property numbers, formula and rollup numbers) is an opaque bit pattern with no arithmetic. Such values are serialised as a float value that has no modelled text. A page or property carrying one is still serialised, but it has no rendered text.
- Hash maps: `FxHashMap` members (properties, settings maps, block map payloads) are unordered maps. Nothing is stated about the order of their keys on the wire.
- `get_value` of `PageProperty`: the structs tests call it, but no implementation appears in `structs/page.rs`, so it is not part of this model.
- `structs/notion.rs` is not part of this model. It duplicates the page records of `structs/page.rs`, and the library does not import it.
- Pagination response fields: `PageResponse` declares neither `has_more` nor `next_cursor`. The documented loop is therefore modelled over a sequence of replies that carry just those two fields (`QueryFilter.QueryReply`), not over `PageResponse`.
- QueryFilter.CursorsSent: the model stops when the sequence of replies runs out. The documented loop retries a failed page forever.
- Duplicated definitions in `structs/database_properties.rs`:
  - its `RichText` constructors and `is_empty` predicates are the same code as `structs/common.rs` and `structs/database.rs`, so they are modelled once, by `Common` and `DatabaseSchema`;
  - its `DatabasePropertySetting` is the `DatabaseSchema.DatabaseProperty` record;
  - the one difference is not modelled: this file's settings options carry a free-string colour, where `database.rs` uses the `Color` enum. The schema record uses the enum for both.
- `DatabaseFilterItems`: modelled by the `QueryFilter.FilterItem` datatype, which has the same fields, constructors and serialisation. Its `and`/`or` constructors are `QueryFilter.FilterItem.And`/`Or`. Its predicate records are the query filter's record datatypes, used as values.
- Block payload serialisation: the fields of each block payload are serialised in full. The lemmas state which keys a block emits, and how many, but not the text of each payload.
- Client.Notion.AppendBlockChildren: an error reply is modelled by the transport parameter's `Err`. How many requests were actually sent is not observable in the result. That the outcome depends only on the requests sent up to the first failure is stated by `Client.SendFirstDependsOnPrefix`.
- Integer widths: `status` is a 32-bit value and the numbers of filters and unique ids are 128-bit values. They are modelled as bounded integer types, with no arithmetic on them.
