# Grid field registry and date filter — a Dafny model

This project models two pure parts of the grid feature of a note-taking
application's Rust backend.

- **Field entities** (`FieldEntities.dfy`). This is the closed set of column
  types (`FieldType`). Each type has a persisted `u8` code (`RichText` = 0 …
  `URL` = 6). Decoding an unknown code falls back to `RichText`. The module
  also holds each type's default column width and its textual type id. It
  models the validators that turn the field events' wire payloads into
  parameters: they reject empty ids in a fixed order, and the field
  changeset conversion also rejects present but empty type option data (the
  insert and type-option-update conversions pass that data on unchecked).
  Last come the three constructors of a grid's field changeset.
- **Date filter** (`DateFilter.dfy`). `IsVisible` decides whether a date cell's
  timestamp passes a filter. A filter is a condition plus an optional start and
  an optional end. `ApplyFilter` lets every non-date cell through. A filter with
  no start hides every date cell, so it fails closed. A cell of another type is
  always shown, so the type check fails open.

`Decimal.dfy` models how the standard library writes an integer as decimal
text, which `type_id` relies on. `Base.dfy` holds the `Option`/`Result`
wrappers (`:-` stands for Rust's `?`) and the fixed-width integer types `u8`,
`i32` and `i64`.

`is_visible` tests for a missing start before it looks at the condition, so
`DateIsEmpty` without a start also hides every cell, timestamp 0 included. The
model keeps that order (`IsVisible`, `MissingStartHidesAll`).

Functions in Dafny are deterministic and cannot touch state. So the promise
that evaluating a filter twice gives the same answer holds by construction.
No separate lemma states it.

## Model

| member | source | states |
|---|---|---|
| `FieldEntities.DefaultFieldType` | frontend/rust-lib/flowy-grid/src/entities/field_entities.rs:474-478 | the default type is the one with code 0, and its column width is 150 |
| `FieldEntities.ToRevision` | frontend/rust-lib/flowy-grid/src/entities/field_entities.rs:537-547 | every type's persisted code is at most 6 |
| `FieldEntities.FromRevision` | frontend/rust-lib/flowy-grid/src/entities/field_entities.rs:554-569 | any code above 6 decodes to `RichText` |
| `FieldEntities.RevisionRoundTrip` | frontend/rust-lib/flowy-grid/src/entities/field_entities.rs:543-569 | decoding a type's code gives the type back, for all seven types |
| `FieldEntities.DecodeEncode` | frontend/rust-lib/flowy-grid/src/entities/field_entities.rs:554-569 | decode is total; encoding a decoded code gives that code back exactly when the code is 0..6; codes above 6 become `RichText`, which encodes to 0 |
| `FieldEntities.RevisionInjective` | frontend/rust-lib/flowy-grid/src/entities/field_entities.rs:463-472 | distinct types have distinct persisted codes |
| `FieldEntities.DefaultCellWidth` | frontend/rust-lib/flowy-grid/src/entities/field_entities.rs:497-502 | the default width is 180 exactly for `DateTime` and 150 exactly for every other type |
| `FieldEntities.TypeId` | frontend/rust-lib/flowy-grid/src/entities/field_entities.rs:493-495 | the type id is a one-character decimal string whose value is the type's code |
| `FieldEntities.TypeIdInjective` | frontend/rust-lib/flowy-grid/src/entities/field_entities.rs:493-495 | two types have equal ids exactly when they are the same type; the id is the digit of the code |
| `FieldEntities.ExactlyOneKind` | frontend/rust-lib/flowy-grid/src/entities/field_entities.rs:504-534 | exactly one of the seven `is_*` type predicates holds for each type; `is_select_option` is single-select or multi-select |
| `FieldEntities.ChangesetInsert` | frontend/rust-lib/flowy-grid/src/entities/field_entities.rs:100-107 | the insert changeset carries the grid id and the inserted fields, and its deleted and updated lists are empty |
| `FieldEntities.ChangesetDelete` | frontend/rust-lib/flowy-grid/src/entities/field_entities.rs:109-116 | the delete changeset carries the grid id and the deleted fields, and its inserted and updated lists are empty |
| `FieldEntities.ChangesetUpdate` | frontend/rust-lib/flowy-grid/src/entities/field_entities.rs:118-125 | the update changeset carries the grid id and the updated fields, and its inserted and deleted lists are empty |
| `FieldEntities.ChangesetKindsDisjoint` | frontend/rust-lib/flowy-grid/src/entities/field_entities.rs:99-126 | changesets from two different constructors are equal only when both carry no fields |
| `FieldEntities.EditFieldParamsFrom` | frontend/rust-lib/flowy-grid/src/entities/field_entities.rs:179-191 | an empty grid id gives `GridIdIsEmpty`, checked before the field id; otherwise an empty field id gives `FieldIdIsEmpty`; success happens exactly when both ids are accepted, and then the ids and type are copied unchanged |
| `FieldEntities.CreateFieldParamsFrom` | frontend/rust-lib/flowy-grid/src/entities/field_entities.rs:198-209 | fails, with `GridIdIsEmpty`, exactly when the grid id is empty; the field id is not checked; on success it carries the grid id and type |
| `FieldEntities.EditFieldParamsRoundTrip` | frontend/rust-lib/flowy-grid/src/entities/field_entities.rs:179-209 | params with accepted ids come back unchanged from a payload that carries them; `create_if_not_exist` affects neither conversion |
| `FieldEntities.InsertFieldParamsFrom` | frontend/rust-lib/flowy-grid/src/entities/field_entities.rs:309-328 | checks the grid id, then the field's id, then a present start field id, in that order; the first gives `GridIdIsEmpty` and the other two share `FieldIdIsEmpty`; an absent start id stays absent; success happens exactly when all present ids are accepted, and then everything is copied unchanged |
| `FieldEntities.UpdateFieldTypeOptionParamsFrom` | frontend/rust-lib/flowy-grid/src/entities/field_entities.rs:349-362 | checks the grid id, then the field id; success happens exactly when both are accepted, and then the type option data is passed on unchecked |
| `FieldEntities.QueryFieldParamsFrom` | frontend/rust-lib/flowy-grid/src/entities/field_entities.rs:378-388 | fails, with `GridIdIsEmpty`, exactly when the grid id is empty; on success the field orders are copied unchanged |
| `FieldEntities.RevisionOf` | frontend/rust-lib/flowy-grid/src/entities/field_entities.rs:426 | an optional field type maps to an optional code that is present exactly when the type is, is one of the codes 0..6 and decodes back to the type, which pins it to the type's own code |
| `FieldEntities.FieldChangesetParamsFrom` | frontend/rust-lib/flowy-grid/src/entities/field_entities.rs:420-445 | the grid id error comes first, then the field id error, then `TypeOptionDataIsEmpty` for present but empty data; success happens exactly when none of these applies, and then every optional field is copied unchanged with the type mapped to its code |
| `FieldEntities.FieldChangesetRoundTrip` | frontend/rust-lib/flowy-grid/src/entities/field_entities.rs:426-443 | a valid changeset payload converts; its field type code is the payload type's own code, decodes back to that type and is unchanged by decoding and re-encoding |
| `FieldEntities.FieldIdentifierFrom` | frontend/rust-lib/flowy-grid/src/entities/field_entities.rs:585-596 | an empty grid id gives `GridIdIsEmpty` before the field id is looked at; otherwise an empty field id gives `FieldIdIsEmpty`; on success both ids are copied |
| `FieldEntities.EmptyGridIdReportedFirst` | frontend/rust-lib/flowy-grid/src/entities/field_entities.rs:179-596 | in every conversion an empty grid id is the reported error, whatever the rest of the payload holds |
| `Decimal.ToDecimal` | frontend/rust-lib/flowy-grid/src/entities/field_entities.rs:494 | the decimal text of a number is a non-empty digit string with no leading zero, one digit long exactly below 10 |
| `Decimal.RoundTrip` | frontend/rust-lib/flowy-grid/src/entities/field_entities.rs:494 | parsing a number's decimal text gives the number back |
| `Decimal.Injective` | frontend/rust-lib/flowy-grid/src/entities/field_entities.rs:494 | distinct numbers have distinct decimal texts |
| `DateFilter.IsVisible` | frontend/rust-lib/flowy-grid/src/services/filter/impls/date_filter.rs:7-29 | with no start nothing is visible; under `DateIsEmpty` only timestamp 0 can be visible; under `DateWithIn` a visible cell has an end and lies between start and end |
| `DateFilter.ApplyFilter` | frontend/rust-lib/flowy-grid/src/services/filter/impls/date_filter.rs:32-40 | never an error; a non-date cell is always shown; a date cell is shown exactly when its timestamp is visible under the filter |
| `DateFilter.MissingStartHidesAll` | frontend/rust-lib/flowy-grid/src/services/filter/impls/date_filter.rs:8-10 | without a start, every condition, `DateIsEmpty` included, hides every timestamp, 0 included |
| `DateFilter.ComparisonConditions` | frontend/rust-lib/flowy-grid/src/services/filter/impls/date_filter.rs:15-19 | with a start, `DateIs`, `DateBefore`, `DateAfter`, `DateOnOrBefore` and `DateOnOrAfter` are exactly =, <, >, <= and >= against the start, whatever the end |
| `DateFilter.StrictIsComplementOfNonStrict` | frontend/rust-lib/flowy-grid/src/services/filter/impls/date_filter.rs:16-19 | `DateBefore` is the negation of `DateOnOrAfter`, and `DateAfter` is the negation of `DateOnOrBefore` |
| `DateFilter.NonStrictSplits` | frontend/rust-lib/flowy-grid/src/services/filter/impls/date_filter.rs:15-19 | on-or-before is before-or-is, on-or-after is after-or-is, and is holds exactly when both non-strict conditions hold |
| `DateFilter.AfterRejectsZero` | frontend/rust-lib/flowy-grid/src/services/filter/impls/date_filter.rs:17 | `DateAfter` with a positive start hides timestamp 0 |
| `DateFilter.WithInIsClosedRange` | frontend/rust-lib/flowy-grid/src/services/filter/impls/date_filter.rs:20-26 | `DateWithIn` shows exactly start <= cell <= end, inclusive at both ends, which is on-or-after the start and on-or-before the end; without an end it shows nothing; a one-day range is `DateIs` |
| `DateFilter.IsEmptyIgnoresOperands` | frontend/rust-lib/flowy-grid/src/services/filter/impls/date_filter.rs:27 | with a start present, `DateIsEmpty` shows exactly timestamp 0, whatever the start and end |
| `DateFilter.EndOnlyMattersForWithIn` | frontend/rust-lib/flowy-grid/src/services/filter/impls/date_filter.rs:14-28 | changing the end does not change the result of any condition other than `DateWithIn` |
| `DateFilter.VisibleSetIsConvex` | frontend/rust-lib/flowy-grid/src/services/filter/impls/date_filter.rs:14-28 | for every filter, a timestamp between two visible timestamps is visible |
| `DateFilter.FailClosedAndFailOpen` | frontend/rust-lib/flowy-grid/src/services/filter/impls/date_filter.rs:33-38 | a filter with no start hides every date cell but shows every non-date cell |
| `DateFilter.UnitTestTable` | frontend/rust-lib/flowy-grid/src/services/filter/impls/date_filter.rs:47-106 | the expected outcomes of the file's unit tests (is, before, on-or-before, after, within) hold |

## Left out

- `frontend/rust-lib/flowy-folder/src/event_map.rs`: event registration, asynchronous cloud-service traits and database access. These are wiring and I/O.
- The protobuf, serde and strum derives on the entities. They are generated serialisers from libraries that are not part of this model.
- `From<FieldRevision>`, `From<Arc<FieldRevision>>` and `IndexField::from_field_rev`. The `FieldOrder` conversions and the `RepeatedField`/`RepeatedFieldOrder` `Deref`, `DerefMut` and `From` impls are left out too. All are field copies over types from other crates, or `Arc` clones. Repeated lists are plain `seq`s in the model.
- `AsRef<FieldType>` and `From<&FieldType> for FieldType`: identities on a value type.
- The payload records with no conversion in this file (`GetEditFieldContextPayload`, `FieldTypeOptionContext`, `FieldTypeOptionData`).
- Accepts: `NotEmptyStr::parse` lives in a crate that is not part of this model. It is modelled as accepting exactly the non-empty strings and returning the string unchanged. If the real rule also rejects blank strings, the model's validators accept payloads the real ones reject.
- The `tracing::error!` log on an unknown field type code. Only the `RichText` fallback it returns is modelled.
- How a stored cell becomes `AnyCellData` and how its date timestamp is decoded. The model's `AnyCellData` already holds the decoded timestamp of a date cell.
- ApplyFilter: the `DateTypeOption` receiver is dropped because `apply_filter` never reads it; its configuration is not part of this model.
- `FlowyError` is modelled as a record with a message, because its definition is not part of this model and no date filter returns one.
- `is_visible` takes any `T: Into<i64>`; the model takes the `i64` directly.
- The numeric codes of `DateFilterCondition` belong to a file that is not part of this model.
- Filters for other field types and the row-level combination of several filters do not appear in the modelled files.
