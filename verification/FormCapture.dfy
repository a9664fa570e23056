/** Captured forms of one attempt: `capture_form` and `answer_field` of app/execution/service.py. The
    fingerprint is read as the form's shape itself (a digest without collisions). */
module FormCapture {
  import opened Base
  import opened Options
  import opened FormMapping
  import opened FormAnswers

  /** What `form_fingerprint` digests of a field. */
  datatype FieldShape = FieldShape(externalId: string, key: string, kind: FieldType, required: bool,
    options: seq<string>)

  function OptionKeys(rd: Reader, options: seq<Choice>): seq<string> {
    if options == [] then []
    else OptionKeys(rd, options[..|options| - 1]) + [rd.lx.normalize(options[|options| - 1].name)]
  }

  function ShapeOf(rd: Reader, fields: seq<Field>): (r: seq<FieldShape>)
    ensures |r| == |fields|
    ensures forall i :: 0 <= i < |fields| ==>
      r[i].key == rd.lx.normalize(fields[i].name) && r[i].kind == fields[i].kind && r[i].required == fields[i].required
  {
    if fields == [] then []
    else
      var f := fields[|fields| - 1];
      ShapeOf(rd, fields[..|fields| - 1])
        + [FieldShape(f.externalId, rd.lx.normalize(f.name), f.kind, f.required, OptionKeys(rd, f.options))]
  }

  /** A stored field: its structure as first captured, and its current answer. */
  datatype Row = Row(field: Field, answer: Mapped)

  type Store = map<seq<FieldShape>, seq<Row>>

  /** The columns a re-capture writes. */
  function Refreshed(row: Mapped, anew: Mapped): Mapped {
    row.(answer := anew.answer, selected := anew.selected, source := anew.source, status := anew.status,
          artifact := anew.artifact, preparedId := anew.preparedId, evidence := anew.evidence)
  }

  function Recaptured(row: Row, anew: seq<Mapped>, i: nat): Row {
    if row.answer.source.User? then row
    else if i < |anew| && anew[i].key == row.answer.key then row.(answer := Refreshed(row.answer, anew[i]))
    else row
  }

  function NewRows(fields: seq<Field>, anew: seq<Mapped>): (r: seq<Row>)
    requires |anew| == |fields|
    ensures |r| == |fields| && forall i :: 0 <= i < |fields| ==> r[i] == Row(fields[i], anew[i])
  {
    seq(|fields|, i requires 0 <= i < |fields| => Row(fields[i], anew[i]))
  }

  function OldRows(rows: seq<Row>, anew: seq<Mapped>): (r: seq<Row>)
    ensures |r| == |rows| && forall i :: 0 <= i < |rows| ==> r[i] == Recaptured(rows[i], anew, i)
  {
    seq(|rows|, i requires 0 <= i < |rows| => Recaptured(rows[i], anew, i))
  }

  /** A capture of `fields` for which the mapping gave `anew`. */
  function CaptureOp(rd: Reader, store: Store, fields: seq<Field>, anew: seq<Mapped>): Store
    requires |anew| == |fields|
  {
    var shape := ShapeOf(rd, fields);
    store[shape := if shape in store then OldRows(store[shape], anew) else NewRows(fields, anew)]
  }

  /** `answer_field`: the candidate's own words; an empty answer is refused. */
  function AnswerRow(rd: Reader, row: Row, text: string): Row {
    var f := row.field;
    var chosen := Match(rd.lx, f.options, text, f.kind.MultiSelect?, f.kind.Checkbox?, CategoryOf(rd, f).Education?);
    row.(answer := row.answer.(
      answer := Some(text), source := User, status := Answered,
      selected := if f.options == [] then row.answer.selected else if chosen != [] then chosen else [text]))
  }

  function AnswerOp(rd: Reader, store: Store, shape: seq<FieldShape>, i: nat, text: string): Store {
    if shape in store && i < |store[shape]| && rd.strip(text) != ""
    then store[shape := store[shape][i := AnswerRow(rd, store[shape][i], rd.strip(text))]]
    else store
  }

  // ---------------------------------------------------------------- histories

  /** A capture with the mapping of its fields, or an answer by the candidate. */
  datatype Step =
    | Captured(fields: seq<Field>, anew: seq<Mapped>)
    | AnsweredBy(shape: seq<FieldShape>, field: nat, text: string)

  /** The mapping has one row per field, under the field's own question key and category, and does not speak
      for the candidate. */
  predicate Plausible(rd: Reader, step: Step) {
    step.Captured? ==>
      |step.anew| == |step.fields| &&
      forall i :: 0 <= i < |step.fields| ==> Mapping(rd, step.fields[i], step.anew[i])
  }

  predicate Mapping(rd: Reader, f: Field, m: Mapped) {
    m.key == rd.lx.normalize(f.name) && m.category == CategoryOf(rd, f) && m.required == f.required && !m.source.User?
  }

  /** Whatever package it is given, `map_fields` yields such a mapping. */
  lemma MappingIsPlausible(rd: Reader, fields: seq<Field>, p: Package)
    ensures Plausible(rd, Captured(fields, MapAll(rd, fields, p)))
  {
    var anew := MapAll(rd, fields, p);
    forall i | 0 <= i < |fields| ensures Mapping(rd, fields[i], anew[i]) {
      assert OwnRow(rd, fields[i], MapOne(rd, fields[i], p));
    }
  }

  function Apply(rd: Reader, store: Store, step: Step): Store
    requires Plausible(rd, step)
  {
    match step
    case Captured(fields, anew) => CaptureOp(rd, store, fields, anew)
    case AnsweredBy(shape, i, text) => AnswerOp(rd, store, shape, i, text)
  }

  predicate AllPlausible(rd: Reader, steps: seq<Step>) {
    forall k :: 0 <= k < |steps| ==> Plausible(rd, steps[k])
  }

  function After(rd: Reader, steps: seq<Step>): Store
    requires AllPlausible(rd, steps)
  {
    if steps == [] then map[] else Apply(rd, After(rd, steps[..|steps| - 1]), steps[|steps| - 1])
  }

  /** Every stored form has as many rows as its shape has fields, under the same question keys and with the
      categories and obligations that follow from the shape. */
  ghost predicate Shaped(rd: Reader, store: Store) {
    forall shape: seq<FieldShape> :: shape in store ==> RowsFit(rd, store[shape], shape)
  }

  predicate RowsFit(rd: Reader, rows: seq<Row>, shape: seq<FieldShape>) {
    |rows| == |shape| && forall i :: 0 <= i < |shape| ==> RowFits(rd, rows[i].answer, shape[i])
  }

  predicate RowFits(rd: Reader, m: Mapped, shape: FieldShape) {
    m.key == shape.key && m.category == rd.classify(shape.key) && m.required == shape.required
  }

  lemma ApplyKeepsShaped(rd: Reader, store: Store, step: Step)
    requires Shaped(rd, store) && Plausible(rd, step)
    ensures Shaped(rd, Apply(rd, store, step))
  {
    if step.Captured? {
      var shape := ShapeOf(rd, step.fields);
      assert RowsFit(rd, if shape in store then OldRows(store[shape], step.anew) else NewRows(step.fields, step.anew),
                     shape);
    }
  }

  lemma {:induction false} AlwaysShaped(rd: Reader, steps: seq<Step>)
    requires AllPlausible(rd, steps)
    ensures Shaped(rd, After(rd, steps))
  {
    if steps != [] {
      AlwaysShaped(rd, steps[..|steps| - 1]);
      ApplyKeepsShaped(rd, After(rd, steps[..|steps| - 1]), steps[|steps| - 1]);
    }
  }

  /** A candidate-answered field. */
  ghost predicate Owned(store: Store, shape: seq<FieldShape>, i: nat) {
    shape in store && i < |store[shape]| && store[shape][i].answer.source.User?
  }

  predicate Touches(step: Step, shape: seq<FieldShape>, i: nat) {
    step.AnsweredBy? && step.shape == shape && step.field == i
  }

  /** The field is the candidate's in both, with the same row. */
  ghost predicate KeptAs(store: Store, store': Store, shape: seq<FieldShape>, i: nat) {
    Owned(store, shape, i) && Owned(store', shape, i) && store'[shape][i] == store[shape][i]
  }

  lemma OwnedIsKept(rd: Reader, store: Store, step: Step, shape: seq<FieldShape>, i: nat)
    requires Plausible(rd, step) && Owned(store, shape, i) && !Touches(step, shape, i)
    ensures KeptAs(store, Apply(rd, store, step), shape, i)
  {
  }

  lemma KeptTrans(x: Store, y: Store, z: Store, shape: seq<FieldShape>, i: nat)
    requires KeptAs(x, y, shape, i) && KeptAs(y, z, shape, i)
    ensures KeptAs(x, z, shape, i)
  {
  }

  /** What the candidate answered changes only through another answer to that field: over any interleaving of
      captures of any forms and answers to other fields it stays as it is. */
  lemma {:induction false} CandidateAnswersStay(rd: Reader, steps: seq<Step>, n: nat, shape: seq<FieldShape>, i: nat)
    requires AllPlausible(rd, steps) && n <= |steps| && Owned(After(rd, steps[..n]), shape, i)
    requires forall k :: n <= k < |steps| ==> !Touches(steps[k], shape, i)
    ensures KeptAs(After(rd, steps[..n]), After(rd, steps), shape, i)
  {
    if n == |steps| {
      assert steps[..n] == steps;
    } else {
      var init, last := steps[..|steps| - 1], steps[|steps| - 1];
      assert init[..n] == steps[..n];
      CandidateAnswersStay(rd, init, n, shape, i);
      OwnedIsKept(rd, After(rd, init), last, shape, i);
      KeptTrans(After(rd, steps[..n]), After(rd, init), Apply(rd, After(rd, init), last), shape, i);
      assert After(rd, steps) == Apply(rd, After(rd, init), last);
    }
  }

  /** Only the candidate makes a field the candidate's. */
  lemma OwnedWasAnswered(rd: Reader, store: Store, step: Step, shape: seq<FieldShape>, i: nat)
    requires Plausible(rd, step) && Owned(Apply(rd, store, step), shape, i) && !Touches(step, shape, i)
    ensures Owned(store, shape, i)
  {
  }

  /** A row is the candidate's, or exactly this mapping. */
  predicate IsFresh(row: Row, m: Mapped) {
    row.answer.source.User? || row.answer == m
  }

  /** Every field of a just captured form is either the candidate's or exactly the fresh mapping at its
      position: equal shapes have equal lengths, question keys, categories and obligations, so no row is
      passed over and no column is left behind. */
  lemma OthersAreFresh(rd: Reader, steps: seq<Step>, fields: seq<Field>, p: Package, i: nat)
    requires AllPlausible(rd, steps) && i < |fields|
    ensures var all := steps + [Captured(fields, MapAll(rd, fields, p))]; var shape := ShapeOf(rd, fields);
      && AllPlausible(rd, all)
      && shape in After(rd, all) && |After(rd, all)[shape]| == |fields|
      && IsFresh(After(rd, all)[shape][i], MapOne(rd, fields[i], p))
  {
    MappingIsPlausible(rd, fields, p);
    FreshAfter(rd, steps, fields, MapAll(rd, fields, p), i);
    assert MapAll(rd, fields, p)[i] == MapOne(rd, fields[i], p);
  }

  lemma FreshAfter(rd: Reader, steps: seq<Step>, fields: seq<Field>, anew: seq<Mapped>, i: nat)
    requires AllPlausible(rd, steps) && Plausible(rd, Captured(fields, anew)) && i < |fields|
    ensures var all := steps + [Captured(fields, anew)]; var shape := ShapeOf(rd, fields);
      && AllPlausible(rd, all)
      && shape in After(rd, all) && |After(rd, all)[shape]| == |fields| && IsFresh(After(rd, all)[shape][i], anew[i])
  {
    var all := steps + [Captured(fields, anew)];
    assert all[..|all| - 1] == steps;
    AlwaysShaped(rd, steps);
    var shape := ShapeOf(rd, fields);
    var before := After(rd, steps);
    if shape in before {
      assert RowsFit(rd, before[shape], shape);
    }
  }

  // -------------------------------------------------------------- the structure

  /** The structure of a form, its label text and option values, is stored once: after a capture a row describes
      the field just captured exactly when the form is new or the row described that field already. */
  lemma StructureIsAsFirstCaptured(rd: Reader, steps: seq<Step>, fields: seq<Field>, anew: seq<Mapped>, i: nat)
    requires AllPlausible(rd, steps) && Plausible(rd, Captured(fields, anew)) && i < |fields|
    ensures var all := steps + [Captured(fields, anew)]; var shape := ShapeOf(rd, fields);
      var before := After(rd, steps);
      && AllPlausible(rd, all) && shape in After(rd, all) && |After(rd, all)[shape]| == |fields|
      && (After(rd, all)[shape][i].field == fields[i] <==>
            shape !in before || (i < |before[shape]| && before[shape][i].field == fields[i]))
  {
    FreshAfter(rd, steps, fields, anew, i);
    var all := steps + [Captured(fields, anew)];
    assert all[..|all| - 1] == steps;
    AlwaysShaped(rd, steps);
    var shape, before := ShapeOf(rd, fields), After(rd, steps);
    if shape in before {
      assert RowsFit(rd, before[shape], shape);
    }
  }

  function Country(value: string): Field {
    Field("country", "Country", Select, true, [Choice("India", Some(value))])
  }

  /** Two forms that differ in an option's value only have one shape, and the second capture leaves the first
      value in place, which the candidate's answer is then matched to. */
  lemma OptionValuesAreAsFirstCaptured(rd: Reader, p: Package)
    ensures var steps := [Captured([Country("in")], MapAll(rd, [Country("in")], p))];
      var again := Captured([Country("IND")], MapAll(rd, [Country("IND")], p));
      var shape := ShapeOf(rd, [Country("IND")]);
      && AllPlausible(rd, steps + [again]) && shape in After(rd, steps + [again])
      && |After(rd, steps + [again])[shape]| == 1
      && After(rd, steps + [again])[shape][0].field == Country("in") != Country("IND")
  {
    var first, second := [Country("in")], [Country("IND")];
    MappingIsPlausible(rd, first, p);
    MappingIsPlausible(rd, second, p);
    var steps := [Captured(first, MapAll(rd, first, p))];
    assert steps[..0] == [];
    SameShape(rd);
    var shape := ShapeOf(rd, second);
    assert After(rd, steps) == map[shape := NewRows(first, MapAll(rd, first, p))];
    var all := steps + [Captured(second, MapAll(rd, second, p))];
    assert all[..1] == steps;
    FreshAfter(rd, steps, second, MapAll(rd, second, p), 0);
    assert After(rd, all)[shape] == OldRows(After(rd, steps)[shape], MapAll(rd, second, p));
  }

  lemma SameShape(rd: Reader)
    ensures ShapeOf(rd, [Country("in")]) == ShapeOf(rd, [Country("IND")])
  {
    var x, y := [Choice("India", Some("in"))], [Choice("India", Some("IND"))];
    assert x[..0] == [] && y[..0] == [];
    assert OptionKeys(rd, x) == OptionKeys(rd, y);
    assert [Country("in")][..0] == [] && [Country("IND")][..0] == [];
  }

  // ---------------------------------------------------------- as it is written

  class CapturedForms {
    const rd: Reader
    var store: Store

    constructor (rd: Reader)
      ensures this.rd == rd && store == map[]
    {
      this.rd := rd;
      store := map[];
    }

    method Capture(fields: seq<Field>, p: Package) returns (rows: seq<Row>)
      modifies this
      ensures store == CaptureOp(rd, old(store), fields, MapAll(rd, fields, p)) && rows == store[ShapeOf(rd, fields)]
    {
      var fingerprint := ShapeOf(rd, fields);
      var anew := MapFields(rd, fields, p);
      rows := Reconcile(fingerprint, fields, anew);
      store := store[fingerprint := rows];
    }

    /** New rows for a new form; for a known one the candidate's rows stay and the others are refreshed. */
    method Reconcile(fingerprint: seq<FieldShape>, fields: seq<Field>, anew: seq<Mapped>) returns (rows: seq<Row>)
      requires |anew| == |fields|
      ensures rows == if fingerprint in store then OldRows(store[fingerprint], anew) else NewRows(fields, anew)
    {
      rows := [];
      if fingerprint !in store {
        for i := 0 to |fields|
          invariant |rows| == i && forall j :: 0 <= j < i ==> rows[j] == Row(fields[j], anew[j])
        {
          rows := rows + [Row(fields[i], anew[i])];
        }
        return;
      }
      rows := store[fingerprint];
      ghost var before := rows;
      for i := 0 to |rows|
        invariant |rows| == |before|
        invariant forall j :: 0 <= j < |rows| ==> rows[j] == if j < i then Recaptured(before[j], anew, j) else before[j]
      {
        if !rows[i].answer.source.User? && i < |anew| && anew[i].key == rows[i].answer.key {
          rows := rows[i := rows[i].(answer := Refreshed(rows[i].answer, anew[i]))];
        }
      }
    }

    method AnswerField(shape: seq<FieldShape>, i: nat, text: string) returns (accepted: bool)
      requires shape in store && i < |store[shape]|
      modifies this
      ensures store == AnswerOp(rd, old(store), shape, i, text) && (accepted <==> rd.strip(text) != "")
      ensures !accepted ==> store == old(store)
      // the words are the candidate's; of a field with options they select what they match, or stand for themselves
      ensures accepted ==>
        var row, words := old(store)[shape][i], rd.strip(text);
        var chosen := Match(rd.lx, row.field.options, words, row.field.kind.MultiSelect?, row.field.kind.Checkbox?,
                            CategoryOf(rd, row.field).Education?);
        var m := row.answer;
        store == old(store)[shape := old(store)[shape][i := Row(row.field, Mapped(
          m.key, m.required, m.category, Answered, User, Some(words),
          if row.field.options == [] then m.selected else if chosen == [] then [words] else chosen,
          m.artifact, m.preparedId, m.evidence))]]
    {
      var words := rd.strip(text);
      if words == "" { return false; }
      var row := store[shape][i];
      var m := row.answer.(answer := Some(words), source := User, status := Answered);
      if row.field.options != [] {
        var chosen := Match(rd.lx, row.field.options, words, row.field.kind.MultiSelect?, row.field.kind.Checkbox?,
                            CategoryOf(rd, row.field).Education?);
        m := m.(selected := if chosen != [] then chosen else [words]);
      }
      store := store[shape := store[shape][i := row.(answer := m)]];
      return true;
    }
  }
}
