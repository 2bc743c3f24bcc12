/**
 * The edit form's pure parts (internal/models/form.go): the per-column validator, the fields
 * built for a selected row, and the header `formView` chooses.
 */
module Editing {
  import opened Base
  import opened Text
  import opened Messages
  import opened Widgets

  const NotAnInteger: string := "Not an integer"

  /**
   * The validator of a field whose column has declared type `colType` (nil = `None`). Only the
   * exact, case-sensitive type "INTEGER" restricts anything: to "NULL" and what `Atoi` parses.
   */
  function Validate(colType: string, s: string): (r: Option<Error>)
    ensures r.Some? ==> r.value == Error(NotAnInteger)
    ensures r.None? <==> colType != "INTEGER" || s == "NULL" || Atoi(s).Some?
  {
    match colType
    case "TEXT" => None
    case "INTEGER" =>
      if s == "NULL" then None
      else if Atoi(s).None? then Some(Error(NotAnInteger))
      else None
    case _ => None
  }

  /** "TEXT" columns accept every string; so does every type other than exactly "INTEGER". */
  lemma OnlyIntegerRestricts(colType: string, s: string)
    requires colType != "INTEGER"
    ensures Validate(colType, s) == None
  {
  }

  /** An "INTEGER" column rejects the empty string, and accepts every printed `int` and "NULL". */
  lemma IntegerExamples(i: int)
    requires MinInt <= i <= MaxInt
    ensures Validate("INTEGER", "") == Some(Error(NotAnInteger))
    ensures Validate("INTEGER", Decimal(i)) == None
    ensures Validate("INTEGER", "NULL") == None
    ensures Validate("integer", "") == None && Validate("INT", "") == None && Validate("", "") == None
  {
    DecimalRoundTrip(i);
  }

  /** The input for column `i`: keyed and titled by the name, described and validated by the type, pre-filled from the row. */
  function EditField(col: Column, value: string, i: nat): Field
  {
    Input(col.name, col.name, col.colType, value, i, col.colType)
  }

  /** One input per column, in column order. */
  function EditFields(columns: seq<Column>, row: seq<string>): (fs: seq<Field>)
    requires |row| >= |columns|
    ensures |fs| == |columns|
  {
    seq(|columns|, i requires 0 <= i < |columns| => EditField(columns[i], row[i], i))
  }

  /** The form `onRowSelect` builds: the inputs and one trailing "Save" confirmation, in one group. */
  function EditForm(columns: seq<Column>, row: seq<string>): (f: Form)
    requires |row| >= |columns|
    ensures |f.fields| == |columns| + 1
    ensures f.fields[|columns|] == Confirm("Save")
    ensures f.state == Normal && f.errors == []
  {
    Form(EditFields(columns, row) + [Confirm("Save")], Normal, [])
  }

  /**
   * Field `i` of the edit form edits cell `i`, is pre-filled from it, and validates against
   * column `i`'s type (each validator sees its own iteration's column).
   */
  lemma EditFormFields(columns: seq<Column>, row: seq<string>, i: int)
    requires |row| >= |columns| && 0 <= i < |columns|
    ensures EditForm(columns, row).fields[i].Input?
    ensures EditForm(columns, row).fields[i].key == columns[i].name
    ensures EditForm(columns, row).fields[i].title == columns[i].name
    ensures EditForm(columns, row).fields[i].placeholder == row[i]
    ensures EditForm(columns, row).fields[i].valueIndex == i
    ensures EditForm(columns, row).fields[i].validates == columns[i].colType
  {
    assert EditForm(columns, row).fields[i] == EditFields(columns, row)[i];
  }

  /** Exactly one field of the edit form is not an input: the last. */
  lemma EditFormHasOneConfirm(columns: seq<Column>, row: seq<string>, j: int)
    requires |row| >= |columns| && 0 <= j < |columns| + 1
    ensures EditForm(columns, row).fields[j].Confirm? <==> j == |columns|
  {
    if j < |columns| { EditFormFields(columns, row, j); }
  }

  /**
   * `formView` over the model's stored form (nil = `None`): "Success!" once the form is
   * completed; otherwise a header line — "Edit Entry", or "Error: " and the first validation
   * error — above the rendered form `body`. With no form, reading `m.form.State` dereferences
   * nil and Go panics: the result is then `None`.
   */
  function FormView(form: Option<Form>, body: string): (v: Option<string>)
    ensures v.None? <==> form.None?
    ensures form.Some? && form.value.state == Completed ==> v == Some("Success!")
    ensures form.Some? && form.value.state != Completed && form.value.errors == [] ==>
              v == Some("Edit Entry\n" + body)
    ensures form.Some? && form.value.state != Completed && form.value.errors != [] ==>
              v == Some("Error: " + Message(form.value.errors[0]) + "\n" + body)
  {
    match form
    case None => None
    case Some(f) =>
      match f.state
      case Completed => Some("Success!")
      case _ =>
        if |f.errors| > 0 then Some("Error: " + Message(f.errors[0]) + "\n" + body)
        else Some("Edit Entry\n" + body)
  }
}
