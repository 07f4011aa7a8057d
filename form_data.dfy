/** The form state of useFormData.js: one record of named values, updated
    field by field, and the check that every required field is filled. */
module FormState {
  import opened Text
  import opened OcrModel

  /** The text fields of the record, in declaration order. */
  const TextFields: seq<string> := [
    "abordado", "naturalidade", "genitora", "apelido", "cpf", "dn", "antecedentes",
    "endereco", "local", "equipe", "veiculoPlaca", "veiculoCor", "veiculoModelo", "tornozeleiraNumero"
  ]

  /** The fields `validateForm` demands, in the order it checks them. */
  const RequiredFields: seq<string> := ["abordado", "genitora", "cpf", "dn", "antecedentes", "endereco", "local", "equipe"]

  /** The record `useState` starts from: every text field empty, every
      "not applicable" box ticked, every opt-in box clear. */
  const InitialFormData: map<string, Value> := map[
    "abordado" := Str(""), "naturalidade" := Str(""), "genitora" := Str(""), "apelido" := Str(""),
    "cpf" := Str(""), "dn" := Str(""), "antecedentes" := Str(""), "endereco" := Str(""),
    "local" := Str(""), "equipe" := Str(""), "veiculoPlaca" := Str(""), "veiculoCor" := Str(""),
    "veiculoModelo" := Str(""), "tornozeleiraNumero" := Str(""),
    "inserirApelido" := Flag(false), "naoAplicaApelido" := Flag(true),
    "tornozeleiraCheck" := Flag(false), "naoAplicaTornozeleira" := Flag(true),
    "veiculoCheck" := Flag(false), "naoAplicaVeiculo" := Flag(true)
  ]

  /** JavaScript truthiness of `formData[field]`: a missing field is `undefined`. */
  predicate Truthy(d: map<string, Value>, field: string) {
    field in d && match d[field] { case Str(s) => s != "" case Flag(b) => b }
  }

  /** `formData[field]?.trim() !== ""` for a text or missing field: a missing
      field reads as `undefined`, which is not `""`. */
  predicate Filled(d: map<string, Value>, field: string) {
    field !in d || (d[field].Str? && Trim(d[field].s) != "")
  }

  /** `requiredFields.every(...)` from `fs`: `Some(false)` at the first empty
      field, `None` where `trim` is called on a checkbox value and throws,
      `Some(true)` when every field passes. */
  function CheckRequired(d: map<string, Value>, fs: seq<string>): Option<bool>
  {
    if fs == [] then Some(true)
    else if fs[0] in d && d[fs[0]].Flag? then None
    else if !Filled(d, fs[0]) then Some(false)
    else CheckRequired(d, fs[1..])
  }

  /** The check passes exactly when every field is filled; it fails only at an
      empty text field and throws only at a checkbox value. */
  lemma {:induction false} CheckRequiredSpec(d: map<string, Value>, fs: seq<string>)
    ensures CheckRequired(d, fs) == Some(true) <==> forall i :: 0 <= i < |fs| ==> Filled(d, fs[i])
    ensures CheckRequired(d, fs) == Some(false) ==> exists i :: 0 <= i < |fs| && EmptyText(d, fs[i])
    ensures CheckRequired(d, fs).None? ==> exists i :: 0 <= i < |fs| && fs[i] in d && d[fs[i]].Flag?
  {
    if fs != [] {
      CheckRequiredSpec(d, fs[1..]);
      if CheckRequired(d, fs) == Some(false) && Filled(d, fs[0]) {
        var i :| 0 <= i < |fs[1..]| && EmptyText(d, fs[1..][i]);
        assert EmptyText(d, fs[i + 1]);
      }
      if CheckRequired(d, fs).None? && !(fs[0] in d && d[fs[0]].Flag?) {
        var i :| 0 <= i < |fs[1..]| && fs[1..][i] in d && d[fs[1..][i]].Flag?;
        assert fs[i + 1] in d && d[fs[i + 1]].Flag?;
      }
    }
  }

  /** A text field that is blank after trimming. */
  predicate EmptyText(d: map<string, Value>, field: string) {
    field in d && d[field].Str? && Trim(d[field].s) == ""
  }

  /** The initial record does not pass: its first required field is empty. */
  lemma InitialNotValid()
    ensures CheckRequired(InitialFormData, RequiredFields) == Some(false)
  {
    assert RequiredFields[0] == "abordado";
    assert InitialFormData["abordado"] == Str("");
    FirstEmptyFails(InitialFormData, RequiredFields);
  }

  /** The check stops with `Some(false)` at a first field holding "". */
  lemma FirstEmptyFails(d: map<string, Value>, fs: seq<string>)
    requires fs != [] && fs[0] in d && d[fs[0]] == Str("")
    ensures CheckRequired(d, fs) == Some(false)
  {
    assert Trim("") == "";
  }

  /** Blanking a required field makes the check fail or throw, never pass. */
  lemma ResetRequiredInvalidates(d: map<string, Value>, field: string)
    requires field in RequiredFields
    ensures CheckRequired(d[field := Str("")], RequiredFields) != Some(true)
  {
    var d' := d[field := Str("")];
    CheckRequiredSpec(d', RequiredFields);
    var i :| 0 <= i < |RequiredFields| && RequiredFields[i] == field;
    assert Trim("") == "";
    assert !Filled(d', RequiredFields[i]);
  }

  /** Updating a field that is not required never changes the verdict. */
  lemma {:induction false} UpdateOtherKeepsVerdict(d: map<string, Value>, fs: seq<string>, field: string, v: Value)
    requires field !in fs
    ensures CheckRequired(d[field := v], fs) == CheckRequired(d, fs)
  {
    if fs != [] {
      UpdateOtherKeepsVerdict(d, fs[1..], field, v);
    }
  }

  /** Filling a required field with non-blank text keeps a passing form passing. */
  lemma FillKeepsValid(d: map<string, Value>, field: string, s: string)
    requires CheckRequired(d, RequiredFields) == Some(true)
    requires Trim(s) != ""
    ensures CheckRequired(d[field := Str(s)], RequiredFields) == Some(true)
  {
    CheckRequiredSpec(d, RequiredFields);
    CheckRequiredSpec(d[field := Str(s)], RequiredFields);
    forall i | 0 <= i < |RequiredFields|
      ensures Filled(d[field := Str(s)], RequiredFields[i])
    {
      assert Filled(d, RequiredFields[i]);
    }
  }

  /** The form record: `formData` and its setters. */
  class FormData {
    var data: map<string, Value>

    /** The record `useState` is given. */
    constructor ()
      ensures data == InitialFormData
    {
      data := InitialFormData;
    }

    /** `updateField`: the named field takes the value; every other field is unchanged. */
    method UpdateField(field: string, value: Value)
      modifies this
      ensures data == old(data)[field := value]
    {
      data := data[field := value];
    }

    /** `resetField`: the named field becomes `""`; every other field is unchanged. */
    method ResetField(field: string)
      modifies this
      ensures data == old(data)[field := Str("")]
    {
      data := data[field := Str("")];
    }

    /** `validateForm`: `Some(true)` exactly when every required field is filled. */
    function ValidateForm(): (r: Option<bool>)
      reads this
      ensures r == Some(true) <==> forall i :: 0 <= i < |RequiredFields| ==> Filled(data, RequiredFields[i])
      ensures r == Some(false) ==> exists i :: 0 <= i < |RequiredFields| && EmptyText(data, RequiredFields[i])
      ensures r.None? ==> exists i :: 0 <= i < |RequiredFields| && RequiredFields[i] in data && data[RequiredFields[i]].Flag?
    {
      CheckRequiredSpec(data, RequiredFields);
      CheckRequired(data, RequiredFields)
    }

    /** `isFormValid` answers as `validateForm` does. */
    function IsFormValid(): (r: Option<bool>)
      reads this
      ensures r == ValidateForm()
      ensures r == Some(true) <==> forall i :: 0 <= i < |RequiredFields| ==> Filled(data, RequiredFields[i])
    {
      ValidateForm()
    }
  }
}
