/** The checks `saveCurrentPlan` (script.js:652-694) runs on the plan editor
    before storing a plan. */
module PlanEditor {
  import opened Wrappers
  import opened Records
  import opened Text

  /** One exercise row of the editor: the name field's text and what
      `parseInt` makes of the sets field (None for NaN). */
  datatype EditorRow = EditorRow(name: string, sets: Option<int>)

  /** The two alerts that stop a save. */
  datatype PlanError = MissingName | NoExercises

  /** A plan to append (a new plan) or to put in place of the one being edited. */
  datatype PlanSave = AddPlan(plan: Plan) | UpdatePlan(plan: Plan)

  /** A row whose name is empty once trimmed; `saveCurrentPlan` skips it. */
  predicate Blank(row: EditorRow) {
    Trim(row.name) == ""
  }

  /** Every row with its name field trimmed. */
  function TrimRows(rows: seq<EditorRow>): (r: seq<EditorRow>)
    ensures |r| == |rows|
    ensures forall i :: 0 <= i < |rows| ==> r[i] == EditorRow(Trim(rows[i].name), rows[i].sets)
  {
    seq(|rows|, i requires 0 <= i < |rows| => EditorRow(Trim(rows[i].name), rows[i].sets))
  }

  /** Keeps the rows whose (already trimmed) name is not empty, as templates with
      `parseInt(sets) || 3` sets; the `k`-th kept row gets id `exerciseId(next + k)`. */
  function Numbered(rows: seq<EditorRow>, exerciseId: nat -> string, next: nat): (r: seq<ExerciseTemplate>)
    ensures |r| <= |rows|
    ensures forall i :: 0 <= i < |r| ==> r[i].id == exerciseId(next + i) && r[i].name != "" && r[i].defaultSets != 0
  {
    if rows == [] then []
    else if rows[0].name != "" then
      [ExerciseTemplate(exerciseId(next), rows[0].name, CountOr3(rows[0].sets))] + Numbered(rows[1..], exerciseId, next + 1)
    else Numbered(rows[1..], exerciseId, next)
  }

  /** The exercises a save keeps: each row's name is trimmed, and the rows left
      with a name become templates in the editor's order. */
  function TemplatesFrom(rows: seq<EditorRow>, exerciseId: nat -> string, next: nat): seq<ExerciseTemplate>
  {
    Numbered(TrimRows(rows), exerciseId, next)
  }

  lemma {:induction false} NumberedEmpty(rows: seq<EditorRow>, exerciseId: nat -> string, next: nat)
    ensures Numbered(rows, exerciseId, next) == [] <==> forall i :: 0 <= i < |rows| ==> rows[i].name == ""
  {
    if rows != [] {
      NumberedEmpty(rows[1..], exerciseId, next);
      assert forall i :: 1 <= i < |rows| ==> rows[i] == rows[1..][i - 1];
    }
  }

  /** Nothing is kept exactly when every row is blank. */
  lemma TemplatesEmpty(rows: seq<EditorRow>, exerciseId: nat -> string, next: nat)
    ensures TemplatesFrom(rows, exerciseId, next) == [] <==> forall i :: 0 <= i < |rows| ==> Blank(rows[i])
  {
    NumberedEmpty(TrimRows(rows), exerciseId, next);
  }

  lemma {:induction false} NumberedAppend(a: seq<EditorRow>, b: seq<EditorRow>, exerciseId: nat -> string, next: nat)
    ensures Numbered(a + b, exerciseId, next) ==
      Numbered(a, exerciseId, next) + Numbered(b, exerciseId, next + |Numbered(a, exerciseId, next)|)
  {
    if a == [] {
      assert a + b == b;
    } else {
      assert (a + b)[0] == a[0] && (a + b)[1..] == a[1..] + b;
      if a[0].name != "" {
        NumberedAppend(a[1..], b, exerciseId, next + 1);
      } else {
        NumberedAppend(a[1..], b, exerciseId, next);
      }
    }
  }

  /** Rows are kept one by one, in the editor's order. */
  lemma TemplatesAppend(a: seq<EditorRow>, b: seq<EditorRow>, exerciseId: nat -> string, next: nat)
    ensures TemplatesFrom(a + b, exerciseId, next) ==
      TemplatesFrom(a, exerciseId, next) + TemplatesFrom(b, exerciseId, next + |TemplatesFrom(a, exerciseId, next)|)
  {
    assert TrimRows(a + b) == TrimRows(a) + TrimRows(b);
    NumberedAppend(TrimRows(a), TrimRows(b), exerciseId, next);
  }

  /** A single row is kept, trimmed and with its set count defaulted, exactly
      when its name is not blank. */
  lemma TemplatesOfRow(row: EditorRow, exerciseId: nat -> string, next: nat)
    ensures TemplatesFrom([row], exerciseId, next) ==
      if Blank(row) then [] else [ExerciseTemplate(exerciseId(next), Trim(row.name), CountOr3(row.sets))]
  {
    assert TrimRows([row]) == [EditorRow(Trim(row.name), row.sets)];
    assert TrimRows([row])[1..] == [];
  }

  /** `saveCurrentPlan` without its side effects: an alert, or the plan to add
      or to update. An editing id means update; an empty one counts as none. */
  function ValidatePlan(nameInput: string, rows: seq<EditorRow>, editingId: Option<string>,
                        newPlanId: string, exerciseId: nat -> string, now: int): (r: Result<PlanSave, PlanError>)
    ensures Trim(nameInput) == "" ==> r == Err(MissingName)
    ensures Trim(nameInput) != "" && (forall i :: 0 <= i < |rows| ==> Blank(rows[i])) ==> r == Err(NoExercises)
    ensures r.Err? <==> Trim(nameInput) == "" || forall i :: 0 <= i < |rows| ==> Blank(rows[i])
    ensures r.Ok? ==>
      r.value.plan.name == Trim(nameInput) && r.value.plan.name != "" &&
      r.value.plan.exercises == TemplatesFrom(rows, exerciseId, 0) && r.value.plan.exercises != [] &&
      r.value.plan.createdAt == now
    ensures r.Ok? ==> (r.value.UpdatePlan? <==> editingId.Some? && editingId.value != "")
    ensures r.Ok? && r.value.UpdatePlan? ==> r.value.plan.id == editingId.value
    ensures r.Ok? && r.value.AddPlan? ==> r.value.plan.id == newPlanId
  {
    var name := Trim(nameInput);
    if name == "" then Err(MissingName)
    else
      var exercises := TemplatesFrom(rows, exerciseId, 0);
      TemplatesEmpty(rows, exerciseId, 0);
      if exercises == [] then Err(NoExercises)
      else if editingId.Some? && editingId.value != "" then Ok(UpdatePlan(Plan(editingId.value, name, exercises, now)))
      else Ok(AddPlan(Plan(newPlanId, name, exercises, now)))
  }
}
