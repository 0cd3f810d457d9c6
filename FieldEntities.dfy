/** The grid's field entities: the closed set of field types with their
    persisted `u8` codes and presentation defaults, the wire payloads of the
    field events together with the validation that turns them into
    parameters, and the field changeset sent back to the view. */
module FieldEntities {

  import opened Wrappers
  import opened Ints
  import Decimal

  /** The error codes the payload conversions report. */
  datatype ErrorCode = GridIdIsEmpty | FieldIdIsEmpty | TypeOptionDataIsEmpty

  // ---------------------------------------------------------------------------
  // Identifier parsing (`NotEmptyStr::parse`)
  // ---------------------------------------------------------------------------

  /** The strings `NotEmptyStr::parse` accepts: the non-empty ones. */
  predicate Accepts(s: string) {
    |s| > 0
  }

  /** `NotEmptyStr::parse`: the string itself when accepted, an error otherwise. */
  function ParseNotEmptyStr(s: string): (r: Result<string, ()>)
    ensures r.Success? <==> Accepts(s)
    ensures r.Success? ==> r.value == s
  {
    if Accepts(s) then Success(s) else Failure(())
  }

  // ---------------------------------------------------------------------------
  // Field types
  // ---------------------------------------------------------------------------

  /** The supported column types. Their order is a persisted contract: new
      types are appended, never inserted. */
  datatype FieldType = RichText | Number | DateTime | SingleSelect | MultiSelect | Checkbox | URL {

    predicate IsNumber() { this == Number }
    predicate IsText() { this == RichText }
    predicate IsCheckbox() { this == Checkbox }
    predicate IsDate() { this == DateTime }
    predicate IsSingleSelect() { this == SingleSelect }
    predicate IsMultiSelect() { this == MultiSelect }
    predicate IsUrl() { this == URL }
    predicate IsSelectOption() { this == MultiSelect || this == SingleSelect }
  }

  /** The type a field gets when none is given. */
  function DefaultFieldType(): (t: FieldType)
    ensures ToRevision(t) == 0
    ensures DefaultCellWidth(t) == 150
  {
    RichText
  }

  /** The persisted code of a type (`ty as u8`). */
  function ToRevision(t: FieldType): (code: u8)
    ensures code <= 6
  {
    match t
    case RichText => 0
    case Number => 1
    case DateTime => 2
    case SingleSelect => 3
    case MultiSelect => 4
    case Checkbox => 5
    case URL => 6
  }

  /** The type a persisted code stands for; an unknown code is read as
      `RichText` (the source also logs it). */
  function FromRevision(code: u8): (t: FieldType)
    ensures code > 6 ==> t == RichText
  {
    match code
    case 0 => RichText
    case 1 => Number
    case 2 => DateTime
    case 3 => SingleSelect
    case 4 => MultiSelect
    case 5 => Checkbox
    case 6 => URL
    case _ => RichText
  }

  /** The width a new column of this type is shown with. */
  function DefaultCellWidth(t: FieldType): (w: i32)
    ensures w == 180 <==> t.IsDate()
    ensures w == 150 <==> !t.IsDate()
  {
    match t
    case DateTime => 180
    case _ => 150
  }

  /** The type's identifier: the decimal text of its code. */
  function TypeId(t: FieldType): (id: string)
    ensures Decimal.AllDigits(id) && Decimal.FromDecimal(id) == ToRevision(t) as nat
    ensures |id| == 1
  {
    Decimal.RoundTrip(ToRevision(t) as nat);
    Decimal.ToDecimal(ToRevision(t) as nat)
  }

  /** How many of the seven single-type predicates hold of `t`. */
  function KindCount(t: FieldType): nat {
    (if t.IsNumber() then 1 else 0) + (if t.IsText() then 1 else 0)
    + (if t.IsCheckbox() then 1 else 0) + (if t.IsDate() then 1 else 0)
    + (if t.IsSingleSelect() then 1 else 0) + (if t.IsMultiSelect() then 1 else 0)
    + (if t.IsUrl() then 1 else 0)
  }

  /** Encoding a type and decoding the code gives the type back. */
  lemma RevisionRoundTrip(t: FieldType)
    ensures FromRevision(ToRevision(t)) == t
  {
  }

  /** Decoding is total; decoding then encoding gives the code back exactly
      for the seven assigned codes, and every other code becomes `RichText`. */
  lemma DecodeEncode(code: u8)
    ensures ToRevision(FromRevision(code)) == code <==> code <= 6
    ensures code > 6 ==> FromRevision(code) == RichText && ToRevision(FromRevision(code)) == 0
  {
  }

  /** Distinct types have distinct codes. */
  lemma RevisionInjective(s: FieldType, t: FieldType)
    ensures ToRevision(s) == ToRevision(t) ==> s == t
  {
    RevisionRoundTrip(s);
    RevisionRoundTrip(t);
  }

  /** Distinct types have distinct identifiers, and every identifier is the
      single digit of the type's code. */
  lemma TypeIdInjective(s: FieldType, t: FieldType)
    ensures TypeId(s) == TypeId(t) <==> s == t
    ensures TypeId(t) == [('0' as int + ToRevision(t) as int) as char]
  {
    RevisionInjective(s, t);
  }

  /** Each type satisfies exactly one of the single-type predicates, and the
      select-option predicate is the disjunction of the two select kinds. */
  lemma ExactlyOneKind(t: FieldType)
    ensures KindCount(t) == 1
    ensures t.IsSelectOption() <==> t.IsSingleSelect() || t.IsMultiSelect()
  {
  }

  // ---------------------------------------------------------------------------
  // Field records
  // ---------------------------------------------------------------------------

  datatype Field = Field(
    id: string,
    name: string,
    desc: string,
    fieldType: FieldType,
    frozen: bool,
    visibility: bool,
    width: i32,
    isPrimary: bool)

  datatype FieldOrder = FieldOrder(fieldId: string)

  datatype IndexField = IndexField(field: Field, index: i32)

  /** The fields a grid gained, lost or changed; each constructor below fills
      exactly one of the three lists. */
  datatype GridFieldChangeset = GridFieldChangeset(
    gridId: string,
    insertedFields: seq<IndexField>,
    deletedFields: seq<FieldOrder>,
    updatedFields: seq<Field>)

  function ChangesetInsert(gridId: string, insertedFields: seq<IndexField>): (c: GridFieldChangeset)
    ensures c.gridId == gridId && c.insertedFields == insertedFields
    ensures c.deletedFields == [] && c.updatedFields == []
  {
    GridFieldChangeset(gridId, insertedFields, [], [])
  }

  function ChangesetDelete(gridId: string, deletedFields: seq<FieldOrder>): (c: GridFieldChangeset)
    ensures c.gridId == gridId && c.deletedFields == deletedFields
    ensures c.insertedFields == [] && c.updatedFields == []
  {
    GridFieldChangeset(gridId, [], deletedFields, [])
  }

  function ChangesetUpdate(gridId: string, updatedFields: seq<Field>): (c: GridFieldChangeset)
    ensures c.gridId == gridId && c.updatedFields == updatedFields
    ensures c.insertedFields == [] && c.deletedFields == []
  {
    GridFieldChangeset(gridId, [], [], updatedFields)
  }

  /** Changesets built by two different constructors coincide only when both
      carry no field at all. */
  lemma ChangesetKindsDisjoint(g: string, ins: seq<IndexField>, del: seq<FieldOrder>, upd: seq<Field>)
    ensures ChangesetInsert(g, ins) == ChangesetDelete(g, del) <==> ins == [] && del == []
    ensures ChangesetInsert(g, ins) == ChangesetUpdate(g, upd) <==> ins == [] && upd == []
    ensures ChangesetDelete(g, del) == ChangesetUpdate(g, upd) <==> del == [] && upd == []
  {
  }

  // ---------------------------------------------------------------------------
  // Payloads and their validation
  // ---------------------------------------------------------------------------

  datatype EditFieldPayload = EditFieldPayload(
    gridId: string,
    fieldId: string,
    fieldType: FieldType,
    createIfNotExist: bool)

  datatype EditFieldParams = EditFieldParams(gridId: string, fieldId: string, fieldType: FieldType)

  datatype CreateFieldParams = CreateFieldParams(gridId: string, fieldType: FieldType)

  /** `EditFieldPayload` into `EditFieldParams`: the grid id is checked first,
      then the field id. */
  function EditFieldParamsFrom(p: EditFieldPayload): (r: Result<EditFieldParams, ErrorCode>)
    ensures !Accepts(p.gridId) ==> r == Failure(GridIdIsEmpty)
    ensures Accepts(p.gridId) && !Accepts(p.fieldId) ==> r == Failure(FieldIdIsEmpty)
    ensures r.Success? <==> Accepts(p.gridId) && Accepts(p.fieldId)
    ensures r.Success? ==> r.value == EditFieldParams(p.gridId, p.fieldId, p.fieldType)
  {
    var gridId :- ParseNotEmptyStr(p.gridId).WithError(GridIdIsEmpty);
    var fieldId :- ParseNotEmptyStr(p.fieldId).WithError(FieldIdIsEmpty);
    Success(EditFieldParams(gridId, fieldId, p.fieldType))
  }

  /** `EditFieldPayload` into `CreateFieldParams`: only the grid id is checked;
      the field id may be empty and is dropped. */
  function CreateFieldParamsFrom(p: EditFieldPayload): (r: Result<CreateFieldParams, ErrorCode>)
    ensures r.Success? <==> Accepts(p.gridId)
    ensures r.Failure? ==> r.error == GridIdIsEmpty
    ensures r.Success? ==> r.value == CreateFieldParams(p.gridId, p.fieldType)
  {
    var gridId :- ParseNotEmptyStr(p.gridId).WithError(GridIdIsEmpty);
    Success(CreateFieldParams(gridId, p.fieldType))
  }

  datatype InsertFieldPayload = InsertFieldPayload(
    gridId: string,
    field: Field,
    typeOptionData: seq<u8>,
    startFieldId: Option<string>)

  datatype InsertFieldParams = InsertFieldParams(
    gridId: string,
    field: Field,
    typeOptionData: seq<u8>,
    startFieldId: Option<string>)

  /** `InsertFieldPayload` into `InsertFieldParams`: grid id, then the new
      field's id, then a present start field id must be non-empty. The type
      option data is passed on without a check. */
  function InsertFieldParamsFrom(p: InsertFieldPayload): (r: Result<InsertFieldParams, ErrorCode>)
    ensures !Accepts(p.gridId) ==> r == Failure(GridIdIsEmpty)
    ensures Accepts(p.gridId) && !Accepts(p.field.id) ==> r == Failure(FieldIdIsEmpty)
    ensures Accepts(p.gridId) && p.startFieldId.Some? && !Accepts(p.startFieldId.value) ==> r == Failure(FieldIdIsEmpty)
    ensures r.Success? <==>
      Accepts(p.gridId) && Accepts(p.field.id) && (p.startFieldId.Some? ==> Accepts(p.startFieldId.value))
    ensures r.Success? ==> r.value == InsertFieldParams(p.gridId, p.field, p.typeOptionData, p.startFieldId)
  {
    var gridId :- ParseNotEmptyStr(p.gridId).WithError(GridIdIsEmpty);
    var _ :- ParseNotEmptyStr(p.field.id).WithError(FieldIdIsEmpty);
    var startFieldId :- match p.startFieldId
      case None => Success(None)
      case Some(id) =>
        var checked :- ParseNotEmptyStr(id).WithError(FieldIdIsEmpty);
        Success(Some(checked));
    Success(InsertFieldParams(gridId, p.field, p.typeOptionData, startFieldId))
  }

  datatype UpdateFieldTypeOptionPayload = UpdateFieldTypeOptionPayload(
    gridId: string,
    fieldId: string,
    typeOptionData: seq<u8>)

  datatype UpdateFieldTypeOptionParams = UpdateFieldTypeOptionParams(
    gridId: string,
    fieldId: string,
    typeOptionData: seq<u8>)

  /** `UpdateFieldTypeOptionPayload` into its parameters: grid id, then field
      id; the type option data is passed on without a check, even when empty. */
  function UpdateFieldTypeOptionParamsFrom(p: UpdateFieldTypeOptionPayload): (r: Result<UpdateFieldTypeOptionParams, ErrorCode>)
    ensures !Accepts(p.gridId) ==> r == Failure(GridIdIsEmpty)
    ensures Accepts(p.gridId) && !Accepts(p.fieldId) ==> r == Failure(FieldIdIsEmpty)
    ensures r.Success? <==> Accepts(p.gridId) && Accepts(p.fieldId)
    ensures r.Success? ==> r.value == UpdateFieldTypeOptionParams(p.gridId, p.fieldId, p.typeOptionData)
  {
    var gridId :- ParseNotEmptyStr(p.gridId).WithError(GridIdIsEmpty);
    var _ :- ParseNotEmptyStr(p.fieldId).WithError(FieldIdIsEmpty);
    Success(UpdateFieldTypeOptionParams(gridId, p.fieldId, p.typeOptionData))
  }

  datatype QueryFieldPayload = QueryFieldPayload(gridId: string, fieldOrders: seq<FieldOrder>)

  datatype QueryFieldParams = QueryFieldParams(gridId: string, fieldOrders: seq<FieldOrder>)

  /** `QueryFieldPayload` into its parameters: only the grid id is checked. */
  function QueryFieldParamsFrom(p: QueryFieldPayload): (r: Result<QueryFieldParams, ErrorCode>)
    ensures r.Success? <==> Accepts(p.gridId)
    ensures r.Failure? ==> r.error == GridIdIsEmpty
    ensures r.Success? ==> r.value == QueryFieldParams(p.gridId, p.fieldOrders)
  {
    var gridId :- ParseNotEmptyStr(p.gridId).WithError(GridIdIsEmpty);
    Success(QueryFieldParams(gridId, p.fieldOrders))
  }

  datatype FieldChangesetPayload = FieldChangesetPayload(
    fieldId: string,
    gridId: string,
    name: Option<string>,
    desc: Option<string>,
    fieldType: Option<FieldType>,
    frozen: Option<bool>,
    visibility: Option<bool>,
    width: Option<i32>,
    typeOptionData: Option<seq<u8>>)

  /** The changeset parameters; the field type travels as its persisted code. */
  datatype FieldChangesetParams = FieldChangesetParams(
    fieldId: string,
    gridId: string,
    name: Option<string>,
    desc: Option<string>,
    fieldType: Option<u8>,
    frozen: Option<bool>,
    visibility: Option<bool>,
    width: Option<i32>,
    typeOptionData: Option<seq<u8>>)

  /** The optional field type, carried over as its code. */
  function RevisionOf(t: Option<FieldType>): (code: Option<u8>)
    ensures code.Some? <==> t.Some?
    ensures t.Some? ==> code.value <= 6 && FromRevision(code.value) == t.value
  {
    match t
    case None => None
    case Some(ft) => Some(ToRevision(ft))
  }

  /** `FieldChangesetPayload` into `FieldChangesetParams`: grid id, then field
      id, then a present type option data must be non-empty. */
  function FieldChangesetParamsFrom(p: FieldChangesetPayload): (r: Result<FieldChangesetParams, ErrorCode>)
    ensures !Accepts(p.gridId) ==> r == Failure(GridIdIsEmpty)
    ensures Accepts(p.gridId) && !Accepts(p.fieldId) ==> r == Failure(FieldIdIsEmpty)
    ensures Accepts(p.gridId) && Accepts(p.fieldId) && p.typeOptionData == Some([]) ==> r == Failure(TypeOptionDataIsEmpty)
    ensures r.Success? <==> Accepts(p.gridId) && Accepts(p.fieldId) && p.typeOptionData != Some([])
    ensures r.Success? ==> r.value == FieldChangesetParams(
      p.fieldId, p.gridId, p.name, p.desc, RevisionOf(p.fieldType),
      p.frozen, p.visibility, p.width, p.typeOptionData)
  {
    var gridId :- ParseNotEmptyStr(p.gridId).WithError(GridIdIsEmpty);
    var fieldId :- ParseNotEmptyStr(p.fieldId).WithError(FieldIdIsEmpty);
    var fieldType := RevisionOf(p.fieldType);
    if p.typeOptionData.Some? && |p.typeOptionData.value| == 0 then
      Failure(TypeOptionDataIsEmpty)
    else
      Success(FieldChangesetParams(
        fieldId, gridId, p.name, p.desc, fieldType,
        p.frozen, p.visibility, p.width, p.typeOptionData))
  }

  datatype FieldIdentifierPayload = FieldIdentifierPayload(fieldId: string, gridId: string)

  datatype FieldIdentifier = FieldIdentifier(fieldId: string, gridId: string)

  /** `FieldIdentifierPayload` into `FieldIdentifier`: grid id, then field id. */
  function FieldIdentifierFrom(p: FieldIdentifierPayload): (r: Result<FieldIdentifier, ErrorCode>)
    ensures !Accepts(p.gridId) ==> r == Failure(GridIdIsEmpty)
    ensures Accepts(p.gridId) && !Accepts(p.fieldId) ==> r == Failure(FieldIdIsEmpty)
    ensures r.Success? <==> Accepts(p.gridId) && Accepts(p.fieldId)
    ensures r.Success? ==> r.value == FieldIdentifier(p.fieldId, p.gridId)
  {
    var gridId :- ParseNotEmptyStr(p.gridId).WithError(GridIdIsEmpty);
    var fieldId :- ParseNotEmptyStr(p.fieldId).WithError(FieldIdIsEmpty);
    Success(FieldIdentifier(fieldId, gridId))
  }

  // ---------------------------------------------------------------------------
  // Properties of the validators
  // ---------------------------------------------------------------------------

  /** The empty string is never accepted as an id, so an empty grid id is
      always the error reported, whatever else the payload holds. */
  lemma EmptyGridIdReportedFirst(fieldId: string, ft: FieldType, create: bool, field: Field,
                                 data: seq<u8>, start: Option<string>, orders: seq<FieldOrder>,
                                 changes: FieldChangesetPayload)
    requires changes.gridId == ""
    ensures EditFieldParamsFrom(EditFieldPayload("", fieldId, ft, create)) == Failure(GridIdIsEmpty)
    ensures CreateFieldParamsFrom(EditFieldPayload("", fieldId, ft, create)) == Failure(GridIdIsEmpty)
    ensures InsertFieldParamsFrom(InsertFieldPayload("", field, data, start)) == Failure(GridIdIsEmpty)
    ensures UpdateFieldTypeOptionParamsFrom(UpdateFieldTypeOptionPayload("", fieldId, data)) == Failure(GridIdIsEmpty)
    ensures QueryFieldParamsFrom(QueryFieldPayload("", orders)) == Failure(GridIdIsEmpty)
    ensures FieldChangesetParamsFrom(changes) == Failure(GridIdIsEmpty)
    ensures FieldIdentifierFrom(FieldIdentifierPayload(fieldId, "")) == Failure(GridIdIsEmpty)
  {
  }

  /** Parameters whose ids are acceptable survive the trip through their
      payload unchanged, and the payload's `createIfNotExist` flag plays no
      part in either edit conversion. */
  lemma EditFieldParamsRoundTrip(q: EditFieldParams, create: bool)
    requires Accepts(q.gridId) && Accepts(q.fieldId)
    ensures EditFieldParamsFrom(EditFieldPayload(q.gridId, q.fieldId, q.fieldType, create)) == Success(q)
    ensures CreateFieldParamsFrom(EditFieldPayload(q.gridId, q.fieldId, q.fieldType, create))
         == Success(CreateFieldParams(q.gridId, q.fieldType))
  {
  }

  /** A valid changeset payload converts, and the field type code it carries
      is canonical: it is the payload type's own code, so decoding and
      re-encoding it changes nothing. */
  lemma FieldChangesetRoundTrip(p: FieldChangesetPayload)
    requires Accepts(p.gridId) && Accepts(p.fieldId) && p.typeOptionData != Some([])
    ensures FieldChangesetParamsFrom(p).Success?
    ensures var q := FieldChangesetParamsFrom(p).value;
      q.fieldType.Some? == p.fieldType.Some? &&
      (q.fieldType.Some? ==>
         FromRevision(q.fieldType.value) == p.fieldType.value &&
         q.fieldType.value == ToRevision(p.fieldType.value) &&
         ToRevision(FromRevision(q.fieldType.value)) == q.fieldType.value)
  {
    if p.fieldType.Some? {
      var code := FieldChangesetParamsFrom(p).value.fieldType.value;
      DecodeEncode(code);
      RevisionInjective(FromRevision(code), p.fieldType.value);
    }
  }
}
