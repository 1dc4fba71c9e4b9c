/** The metadata editor: the numbered inputs that the page prints and its script renumbers, and
    the parser that reads the submitted form back. */
module FormRoundTrip {
  import opened Text
  import opened ProviderModel

  type Form = map<string, string>

  function Get(form: Form, name: string): string {
    if name in form then form[name] else ""
  }

  /** The four inputs of one field. */
  datatype Part = CodePart | TypePart | RequiredPart | ReadOnlyPart

  function Prefix(part: Part): string {
    match part
    case CodePart => "field_code_"
    case TypePart => "field_type_"
    case RequiredPart => "field_required_"
    case ReadOnlyPart => "field_read_only_"
  }

  function Name(part: Part, index: nat): string {
    Prefix(part) + Decimal(index)
  }

  const CODE := "code"
  const NAME := "name"
  const KIND := "kind"
  const EXPECTED_VERSION := "expected_version"
  const FIELD_COUNT := "field_count"
  const MAX_FIELDS: nat := 200

  // ---------------------------------------------------------------- printing

  /** What the browser submits for one field: a checkbox only when it is checked. */
  function AddInputs(form: Form, index: nat, field: Field): Form {
    var texts := form[Name(CodePart, index) := field.code][Name(TypePart, index) := field.dataType];
    var required := if field.required then texts[Name(RequiredPart, index) := "on"] else texts;
    if field.readOnly then required[Name(ReadOnlyPart, index) := "on"] else required
  }

  function PrintFields(form: Form, fields: seq<Field>): Form {
    if fields == [] then form
    else
      var last := |fields| - 1;
      AddInputs(PrintFields(form, fields[..last]), last, fields[last])
  }

  function PrintHead(entity: Entity, count: nat): Form
    requires entity.version >= 0
  {
    map[CODE := entity.code, NAME := entity.name, KIND := entity.kind,
        EXPECTED_VERSION := Decimal(entity.version), FIELD_COUNT := Decimal(count)]
  }

  /** The form that the edit page of an entity submits unchanged. */
  function Print(entity: Entity): Form
    requires entity.version >= 0
  {
    PrintFields(PrintHead(entity, |entity.fields|), entity.fields)
  }

  // ---------------------------------------------------------------- parsing

  datatype Outcome = Accepted(entity: Entity) | BadVersion | BadCount | OutOfBounds

  predicate Bounded(value: string, limit: nat) {
    |value| <= limit && !HasControl(value)
  }

  predicate BoundedField(field: Field) {
    Bounded(field.code, 256) && field.code != "" && Bounded(field.dataType, 256) && field.dataType != ""
  }

  predicate BoundedHead(entity: Entity) {
    && Bounded(entity.code, 256) && entity.code != "" && Bounded(entity.name, 512) && entity.name != ""
    && Bounded(entity.kind, 128)
  }

  function FieldAt(form: Form, index: nat): Field {
    Field(Get(form, Name(CodePart, index)), Get(form, Name(TypePart, index)),
          Name(RequiredPart, index) in form, Name(ReadOnlyPart, index) in form)
  }

  function FieldsOf(form: Form, count: nat): seq<Field> {
    seq(count, i requires 0 <= i => FieldAt(form, i))
  }

  function Parse(form: Form): Outcome {
    var version := ParseInt(Get(form, EXPECTED_VERSION));
    var count := ParseInt(Get(form, FIELD_COUNT));
    if version == NotANumber || version.value < 0 then BadVersion
    else if count == NotANumber || !(0 <= count.value <= MAX_FIELDS) then BadCount
    else
      var entity := Entity(Get(form, CODE), Get(form, NAME), Get(form, KIND), version.value,
                           FieldsOf(form, count.value));
      if BoundedHead(entity) && forall i | 0 <= i < |entity.fields| :: BoundedField(entity.fields[i])
      then Accepted(entity) else OutOfBounds
  }

  method AllBounded(fields: seq<Field>) returns (bounded: bool)
    ensures bounded <==> forall i | 0 <= i < |fields| :: BoundedField(fields[i])
  {
    for index := 0 to |fields|
      invariant forall i | 0 <= i < index :: BoundedField(fields[i])
    {
      if !BoundedField(fields[index]) {
        return false;
      }
    }
    return true;
  }

  /** `parseMetadataEntity`. The accepted entity has what the inputs of these names hold, as many fields
      as the count says, up to 200, and a version that is not negative. */
  method ParseMetadataEntity(form: Form) returns (outcome: Outcome)
    ensures outcome == Parse(form)
    ensures outcome.Accepted? ==>
              var entity := outcome.entity;
              && ParseInt(Get(form, "expected_version")) == Number(entity.version) && 0 <= entity.version
              && ParseInt(Get(form, "field_count")) == Number(|entity.fields|) && |entity.fields| <= 200
              && entity.code == Get(form, "code") && entity.name == Get(form, "name")
              && entity.kind == Get(form, "kind")
              && forall i | 0 <= i < |entity.fields| ::
                   && entity.fields[i].code == Get(form, "field_code_" + Decimal(i))
                   && entity.fields[i].dataType == Get(form, "field_type_" + Decimal(i))
                   && entity.fields[i].required == ("field_required_" + Decimal(i) in form)
                   && entity.fields[i].readOnly == ("field_read_only_" + Decimal(i) in form)
  {
    var version := ParseInt(Get(form, EXPECTED_VERSION));
    if version == NotANumber || version.value < 0 {
      return BadVersion;
    }
    var count := ParseInt(Get(form, FIELD_COUNT));
    if count == NotANumber || count.value < 0 || count.value > MAX_FIELDS {
      return BadCount;
    }
    var fields: seq<Field> := [];
    for index := 0 to count.value
      invariant fields == FieldsOf(form, index)
    {
      var suffix := Decimal(index);
      fields := fields + [Field(Get(form, "field_code_" + suffix), Get(form, "field_type_" + suffix),
                                "field_required_" + suffix in form, "field_read_only_" + suffix in form)];
    }
    var entity := Entity(Get(form, CODE), Get(form, NAME), Get(form, KIND), version.value, fields);
    if !BoundedHead(entity) {
      return OutOfBounds;
    }
    var bounded := AllBounded(fields);
    return if bounded then Accepted(entity) else OutOfBounds;
  }

  // ---------------------------------------------------------------- names

  lemma NameShape(part: Part, index: nat)
    ensures |Name(part, index)| >= 12 && Name(part, index)[..|Prefix(part)|] == Prefix(part)
    ensures Name(part, index)[8] == match part
                                    case CodePart => 'd'
                                    case TypePart => 'p'
                                    case RequiredPart => 'q'
                                    case ReadOnlyPart => 'a'
    ensures Name(part, index)[0] == 'f'
  {
    var name := Name(part, index);
    assert name[8] == Prefix(part)[8] && name[0] == Prefix(part)[0];
  }

  lemma NamesDiffer(part: Part, index: nat, part': Part, index': nat)
    requires Name(part, index) == Name(part', index')
    ensures part == part' && index == index'
  {
    NameShape(part, index);
    NameShape(part', index');
    assert Decimal(index) == Name(part, index)[|Prefix(part)|..];
    assert Decimal(index') == Name(part', index')[|Prefix(part')|..];
    DecimalInjective(index, index');
  }

  lemma HeadNamesDiffer(part: Part, index: nat)
    ensures Name(part, index) != CODE && Name(part, index) != NAME && Name(part, index) != KIND
    ensures Name(part, index) != EXPECTED_VERSION && Name(part, index) != FIELD_COUNT
  {
    NameShape(part, index);
    assert |CODE| == 4 && |NAME| == 4 && |KIND| == 4 && EXPECTED_VERSION[0] == 'e' && FIELD_COUNT[8] == 'u';
  }

  // ---------------------------------------------------------------- reading back

  /** Adding the inputs of one field shows that field and changes no other input. */
  lemma InputsAdded(form: Form, index: nat, field: Field, other: nat)
    requires forall part | part in {CodePart, TypePart, RequiredPart, ReadOnlyPart} :: Name(part, index) !in form
    ensures FieldAt(AddInputs(form, index, field), index) == field
    ensures other != index ==> FieldAt(AddInputs(form, index, field), other) == FieldAt(form, other)
  {
    forall part, part' | Name(part, index) == Name(part', index) ensures part == part' {
      NamesDiffer(part, index, part', index);
    }
    forall part, part' | Name(part, index) == Name(part', other) ensures index == other {
      NamesDiffer(part, index, part', other);
    }
    assert RequiredPart in {CodePart, TypePart, RequiredPart, ReadOnlyPart};
  }

  ghost predicate NoInputsFrom(form: Form, index: nat) {
    forall part, i: nat | index <= i :: Name(part, i) !in form
  }

  lemma {:induction false} FieldsPrinted(form: Form, fields: seq<Field>)
    requires NoInputsFrom(form, 0)
    ensures NoInputsFrom(PrintFields(form, fields), |fields|)
    ensures forall i | 0 <= i < |fields| :: FieldAt(PrintFields(form, fields), i) == fields[i]
    decreases |fields|
  {
    if fields != [] {
      var last := |fields| - 1;
      var before := PrintFields(form, fields[..last]);
      FieldsPrinted(form, fields[..last]);
      forall part, i: nat | |fields| <= i ensures Name(part, i) !in AddInputs(before, last, fields[last]) {
        forall part' | Name(part, i) == Name(part', last) ensures false {
          NamesDiffer(part, i, part', last);
        }
      }
      forall i | 0 <= i < |fields| ensures FieldAt(AddInputs(before, last, fields[last]), i) == fields[i] {
        InputsAdded(before, last, fields[last], i);
        assert i < last ==> fields[..last][i] == fields[i];
      }
    }
  }

  ghost predicate IsHeadName(name: string) {
    forall part, i: nat :: Name(part, i) != name
  }

  lemma {:induction false} HeadKept(form: Form, fields: seq<Field>, name: string)
    requires IsHeadName(name)
    ensures Get(PrintFields(form, fields), name) == Get(form, name)
    decreases |fields|
  {
    if fields != [] {
      HeadKept(form, fields[..|fields| - 1], name);
    }
  }

  lemma HeadNames()
    ensures IsHeadName(CODE) && IsHeadName(NAME) && IsHeadName(KIND)
    ensures IsHeadName(EXPECTED_VERSION) && IsHeadName(FIELD_COUNT)
  {
    forall part, i: nat
      ensures Name(part, i) != CODE && Name(part, i) != NAME && Name(part, i) != KIND
              && Name(part, i) != EXPECTED_VERSION && Name(part, i) != FIELD_COUNT
    {
      HeadNamesDiffer(part, i);
    }
  }

  lemma HeadPrinted(entity: Entity, count: nat)
    requires entity.version >= 0
    ensures var head := PrintHead(entity, count);
            && NoInputsFrom(head, 0)
            && Get(head, CODE) == entity.code && Get(head, NAME) == entity.name && Get(head, KIND) == entity.kind
            && Get(head, EXPECTED_VERSION) == Decimal(entity.version) && Get(head, FIELD_COUNT) == Decimal(count)
  {
    assert |CODE| == 4 && CODE[0] == 'c' && |NAME| == 4 && NAME[0] == 'n' && |KIND| == 4 && KIND[0] == 'k';
    assert |EXPECTED_VERSION| == 16 && |FIELD_COUNT| == 11;
    HeadNames();
  }

  /** The entities that the editor can carry. */
  predicate Editable(entity: Entity) {
    && BoundedHead(entity) && 0 <= entity.version <= MAX_INT64 && |entity.fields| <= MAX_FIELDS
    && forall i | 0 <= i < |entity.fields| :: BoundedField(entity.fields[i])
  }

  /** What the parser reads from a printed form. */
  lemma PrintedIsRead(entity: Entity)
    requires entity.version >= 0
    ensures var form := Print(entity);
            && Get(form, CODE) == entity.code && Get(form, NAME) == entity.name && Get(form, KIND) == entity.kind
            && Get(form, EXPECTED_VERSION) == Decimal(entity.version)
            && Get(form, FIELD_COUNT) == Decimal(|entity.fields|)
            && FieldsOf(form, |entity.fields|) == entity.fields
  {
    var head := PrintHead(entity, |entity.fields|);
    HeadNames();
    HeadPrinted(entity, |entity.fields|);
    FieldsPrinted(head, entity.fields);
    HeadKept(head, entity.fields, CODE);
    HeadKept(head, entity.fields, NAME);
    HeadKept(head, entity.fields, KIND);
    HeadKept(head, entity.fields, EXPECTED_VERSION);
    HeadKept(head, entity.fields, FIELD_COUNT);
  }

  /** Printing and parsing give the entity back, with its fields in order and its version, exactly
      when it is within the bounds of the editor. */
  lemma FormRoundTripsExactly(entity: Entity)
    requires entity.version >= 0
    ensures Parse(Print(entity)) == Accepted(entity) <==> Editable(entity)
  {
    PrintedIsRead(entity);
    ParseDecimal(entity.version);
    ParseDecimal(|entity.fields|);
  }

  /** The editor carries exactly the entities with a code of 1 to 256 bytes, a name of 1 to 512, a kind
      of at most 128, a version within int64 and at most 200 fields with codes and types of 1 to 256
      bytes, all without control characters: what their pages print is read back as it was, with every
      field in its place, and what the page of any other entity prints is not. */
  lemma FormRoundTripsWithin(entity: Entity)
    requires entity.version >= 0
    ensures Parse(Print(entity)) == Accepted(entity) <==>
              && 1 <= |entity.code| <= 256 && 1 <= |entity.name| <= 512 && |entity.kind| <= 128
              && Plain(entity.code) && Plain(entity.name) && Plain(entity.kind)
              && entity.version <= 0x7FFF_FFFF_FFFF_FFFF && |entity.fields| <= 200
              && forall i | 0 <= i < |entity.fields| ::
                   && 1 <= |entity.fields[i].code| <= 256 && 1 <= |entity.fields[i].dataType| <= 256
                   && Plain(entity.fields[i].code) && Plain(entity.fields[i].dataType)
    ensures Parse(Print(entity)).Accepted? ==> Parse(Print(entity)).entity == entity
  {
    PrintedIsRead(entity);
    ParseDecimal(entity.version);
    ParseDecimal(|entity.fields|);
    PlainIsUncontrolled(entity.code);
    PlainIsUncontrolled(entity.name);
    PlainIsUncontrolled(entity.kind);
    forall i | 0 <= i < |entity.fields|
      ensures BoundedField(entity.fields[i]) <==>
                && 1 <= |entity.fields[i].code| <= 256 && 1 <= |entity.fields[i].dataType| <= 256
                && Plain(entity.fields[i].code) && Plain(entity.fields[i].dataType)
    {
      PlainIsUncontrolled(entity.fields[i].code);
      PlainIsUncontrolled(entity.fields[i].dataType);
    }
  }

  // ---------------------------------------------------------------- the script

  /** One field section of the page; `index` is the number in its input names, and -1 stands for a
      copy of the template, whose inputs have no names. */
  datatype Row = Row(index: int, field: Field)

  /** The sections in page order and the hidden count. */
  datatype Editor = Editor(rows: seq<Row>, count: nat)

  datatype Edit = AddField | RemoveField(at: nat) | TypeField(at: nat, field: Field)

  const EMPTY_FIELD := Field("", "", false, false)

  function Opened(entity: Entity): Editor {
    Editor(seq(|entity.fields|, i requires 0 <= i < |entity.fields| => Row(i, entity.fields[i])), |entity.fields|)
  }

  /** `reindex`: numbers the sections by their place. */
  method Reindex(editor: Editor) returns (numbered: Editor)
    ensures numbered == Reindexed(editor)
  {
    var rows := editor.rows;
    for index := 0 to |rows|
      invariant |rows| == |editor.rows|
      invariant forall i | 0 <= i < |rows| ::
                  rows[i] == if i < index then Row(i, editor.rows[i].field) else editor.rows[i]
    {
      rows := rows[index := rows[index].(index := index)];
    }
    numbered := Editor(rows, |rows|);
    assert numbered.rows == Reindexed(editor).rows;
  }

  function Reindexed(editor: Editor): Editor {
    Editor(seq(|editor.rows|, i requires 0 <= i < |editor.rows| => Row(i, editor.rows[i].field)), |editor.rows|)
  }

  function Edited(editor: Editor, edit: Edit): Editor {
    match edit
    case AddField =>
      if |editor.rows| >= MAX_FIELDS then editor
      else Reindexed(editor.(rows := editor.rows + [Row(-1, EMPTY_FIELD)]))
    case RemoveField(at) =>
      if at < |editor.rows| then Reindexed(editor.(rows := editor.rows[..at] + editor.rows[at + 1..])) else editor
    case TypeField(at, field) =>
      if at < |editor.rows| then editor.(rows := editor.rows[at := editor.rows[at].(field := field)]) else editor
  }

  function EditedAll(editor: Editor, edits: seq<Edit>): Editor
    decreases |edits|
  {
    if edits == [] then editor else EditedAll(Edited(editor, edits[0]), edits[1..])
  }

  /** The same edits on a plain list of fields. */
  function Changed(fields: seq<Field>, edit: Edit): seq<Field> {
    match edit
    case AddField => if |fields| >= MAX_FIELDS then fields else fields + [EMPTY_FIELD]
    case RemoveField(at) => if at < |fields| then fields[..at] + fields[at + 1..] else fields
    case TypeField(at, field) => if at < |fields| then fields[at := field] else fields
  }

  function ChangedAll(fields: seq<Field>, edits: seq<Edit>): seq<Field>
    decreases |edits|
  {
    if edits == [] then fields else ChangedAll(Changed(fields, edits[0]), edits[1..])
  }

  /** The inputs of the sections in page order; inputs without a name are not submitted. */
  function SubmitRows(form: Form, rows: seq<Row>): Form {
    if rows == [] then form
    else
      var last := rows[|rows| - 1];
      var before := SubmitRows(form, rows[..|rows| - 1]);
      if last.index >= 0 then AddInputs(before, last.index, last.field) else before
  }

  function Submit(entity: Entity, editor: Editor): Form
    requires entity.version >= 0
  {
    SubmitRows(PrintHead(entity, editor.count), editor.rows)
  }

  /** The sections show the fields in order and carry their own places as numbers. */
  predicate Shows(editor: Editor, fields: seq<Field>) {
    && editor.count == |editor.rows| == |fields|
    && forall i | 0 <= i < |fields| :: editor.rows[i] == Row(i, fields[i])
  }

  lemma {:induction false} EditsShow(editor: Editor, fields: seq<Field>, edits: seq<Edit>)
    requires Shows(editor, fields)
    ensures Shows(EditedAll(editor, edits), ChangedAll(fields, edits))
    decreases |edits|
  {
    if edits != [] {
      EditsShow(Edited(editor, edits[0]), Changed(fields, edits[0]), edits[1..]);
    }
  }

  lemma {:induction false} SubmitPrints(form: Form, editor: Editor, fields: seq<Field>, count: nat)
    requires Shows(editor, fields) && count <= |fields|
    ensures SubmitRows(form, editor.rows[..count]) == PrintFields(form, fields[..count])
    decreases count
  {
    if count > 0 {
      SubmitPrints(form, editor, fields, count - 1);
      assert editor.rows[..count][..count - 1] == editor.rows[..count - 1];
      assert fields[..count][..count - 1] == fields[..count - 1];
    }
  }

  /** After any adding, removing and typing, the submitted form parses to exactly the edited list
      of fields, in order, under the version that the page was opened with, if that is editable,
      and is refused otherwise. */
  lemma EditorRoundTrips(entity: Entity, edits: seq<Edit>)
    requires entity.version >= 0
    ensures var edited := entity.(fields := ChangedAll(entity.fields, edits));
            Parse(Submit(entity, EditedAll(Opened(entity), edits))) == Accepted(edited) <==> Editable(edited)
  {
    var fields := ChangedAll(entity.fields, edits);
    var editor := EditedAll(Opened(entity), edits);
    EditsShow(Opened(entity), entity.fields, edits);
    SubmitPrints(PrintHead(entity, editor.count), editor, fields, |fields|);
    assert editor.rows[..|fields|] == editor.rows && fields[..|fields|] == fields;
    assert PrintHead(entity, |fields|) == PrintHead(entity.(fields := fields), |fields|);
    FormRoundTripsExactly(entity.(fields := fields));
  }
}
