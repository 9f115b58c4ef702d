/**
 * The "add product" form: field checks, the normalisers applied while typing, the SKU
 * uniqueness state and the submit sequence. The uniqueness query and the insert are backend
 * calls; their answers are inputs here.
 */
module ProductForm {
  import opened Wrappers
  import opened Seqs
  import opened Text
  import opened Masks
  import opened Forms

  const Fields := ["name", "sku", "category", "price", "cost", "stock", "min_stock", "supplier"]

  const Required := "Este campo é obrigatório."
  const SkuRequired := "O SKU é obrigatório."
  const SkuInvalid := "Formato inválido. Use letras maiúsculas, números e hifens."
  const NotANumber := "Valor inválido."
  const NotAnInteger := "Use apenas números inteiros."
  const SkuTaken := "Este SKU já está em uso."
  const SignedOut := "Você precisa estar logado para adicionar produtos."
  const InsertFailed := "Erro ao adicionar produto: "
  const ConnectionFailed := "Erro de conexão. Verifique se o Supabase está configurado corretamente."
  /** The fragment of the database's unique-constraint error. */
  const DuplicateKey := "duplicate key value violates unique constraint"

  /** A character the SKU may hold: A-Z, 0-9 or '-'. */
  predicate IsSkuChar(c: char) {
    IsUpperAlnum(c) || c == '-'
  }

  /** Where the matcher for `^[A-Z0-9]+(-[A-Z0-9]+)*$` stands: a group is due, inside a group, or failed. */
  datatype SkuState = GroupDue | InGroup | Failed

  function SkuStep(q: SkuState, c: char): SkuState {
    match q
    case Failed => Failed
    case GroupDue => if IsUpperAlnum(c) then InGroup else Failed
    case InGroup => if IsUpperAlnum(c) then InGroup else if c == '-' then GroupDue else Failed
  }

  function SkuRun(s: string): SkuState
    decreases |s|
  {
    if s == [] then GroupDue else SkuStep(SkuRun(s[..|s| - 1]), s[|s| - 1])
  }

  /** `/^[A-Z0-9]+(-[A-Z0-9]+)*$/.test(s)`. */
  predicate MatchesSku(s: string) {
    SkuRun(s) == InGroup
  }

  /** Only SKU characters, no '-' first, and no two '-' in a row. */
  predicate SkuPrefix(s: string) {
    && (forall i :: 0 <= i < |s| ==> IsSkuChar(s[i]))
    && (|s| > 0 ==> s[0] != '-')
    && (forall i :: 0 <= i < |s| - 1 ==> !(s[i] == '-' && s[i + 1] == '-'))
  }

  /** The format read as a grammar: groups of A-Z and 0-9 joined by single hyphens. */
  predicate SkuShape(s: string) {
    |s| > 0 && SkuPrefix(s) && s[|s| - 1] != '-'
  }

  lemma SkuPrefixSnoc(u: string, c: char)
    ensures SkuPrefix(u + [c]) <==>
      SkuPrefix(u) && IsSkuChar(c) && (u == [] ==> c != '-') && (u != [] && u[|u| - 1] == '-' ==> c != '-')
  {
    var s := u + [c];
    assert forall i :: 0 <= i < |u| ==> s[i] == u[i];
    if SkuPrefix(s) {
      assert forall i :: 0 <= i < |u| ==> IsSkuChar(u[i]) by {
        forall i | 0 <= i < |u| ensures IsSkuChar(u[i]) { assert IsSkuChar(s[i]); }
      }
      assert IsSkuChar(s[|u|]);
      if u != [] && u[|u| - 1] == '-' {
        assert !(s[|u| - 1] == '-' && s[|u|] == '-');
      }
    }
  }

  /** What the matcher's state says about the text read so far. */
  lemma {:induction false} SkuRunState(s: string)
    ensures SkuRun(s) == InGroup <==> SkuShape(s)
    ensures SkuRun(s) == GroupDue <==> s == [] || (SkuPrefix(s) && s[|s| - 1] == '-')
    decreases |s|
  {
    if s != [] {
      var u, c := s[..|s| - 1], s[|s| - 1];
      SkuRunState(u);
      assert s == u + [c];
      SkuPrefixSnoc(u, c);
    }
  }

  /** The matcher accepts exactly the grammar. */
  lemma SkuFormatIff(s: string)
    ensures MatchesSku(s) <==> SkuShape(s)
  {
    SkuRunState(s);
  }

  /** `/^\d+$/.test(s)`. */
  predicate MatchesInteger(s: string) {
    |s| > 0 && AllDigits(s)
  }

  /** `validateField`. */
  function Validate(name: string, value: string): (r: string)
    ensures name in {"name", "category", "supplier"} ==> (r == "" <==> !AllSpace(value)) && (r != "" ==> r == Required)
    ensures name == "sku" ==> (r == "" <==> SkuShape(value)) && (value == "" <==> r == SkuRequired)
    ensures name in {"price", "cost"} ==> (r == "" <==> value != "" && ParsesAsNumber(value))
    ensures name in {"stock", "min_stock"} ==> (r == "" <==> value != "" && AllDigits(value))
    ensures name !in Fields ==> r == ""
  {
    TrimEmptyIff(value);
    SkuFormatIff(value);
    match name
    case "name" | "category" | "supplier" => if Trim(value) != "" then "" else Required
    case "sku" =>
      if value == "" then SkuRequired
      else if !MatchesSku(value) then SkuInvalid
      else ""
    case "price" | "cost" =>
      if value == "" then Required
      else if !ParsesAsNumber(value) then NotANumber
      else ""
    case "stock" | "min_stock" =>
      if value == "" then Required
      else if !MatchesInteger(value) then NotAnInteger
      else ""
    case _ => ""
  }

  /** The SKU normaliser: `value.toUpperCase().replace(/[^A-Z0-9-]/g, '')`. */
  function SkuInput(v: string): (r: string)
    ensures forall i :: 0 <= i < |r| ==> IsSkuChar(r[i])
  {
    Filter(Upper(v), IsSkuChar)
  }

  /** Normalising a normalised SKU changes nothing. */
  lemma SkuInputIdempotent(v: string)
    ensures SkuInput(SkuInput(v)) == SkuInput(v)
  {
    var r := SkuInput(v);
    assert Upper(r) == r by {
      forall i | 0 <= i < |r| ensures UpperChar(r[i]) == r[i] {
        assert IsSkuChar(r[i]);
      }
    }
    FilterAll(r, IsSkuChar);
  }

  /** The `handleChange` normalisers; other fields are stored as typed. */
  function Normalise(name: string, value: string): string {
    if name in {"price", "cost"} then DecimalInput(value)
    else if name in {"stock", "min_stock"} then Digits(value)
    else if name == "sku" then SkuInput(value)
    else value
  }

  /** A non-empty normalised stock is always accepted. */
  lemma StockInputAccepted(name: string, v: string)
    requires name in {"stock", "min_stock"} && Normalise(name, v) != ""
    ensures Validate(name, Normalise(name, v)) == ""
  {
    DigitsAreAllDigits(v);
  }

  /** A normalised price is accepted exactly when it starts with a digit, or with a dot and a digit. */
  lemma PriceInputAccepted(name: string, v: string)
    requires name in {"price", "cost"}
    ensures var r := Normalise(name, v);
      Validate(name, r) == "" <==> |r| > 0 && (IsDigit(r[0]) || (|r| > 1 && r[0] == '.' && IsDigit(r[1])))
  {
    DecimalInputSpec(v);
    PlainDecimalParses(DecimalInput(v));
  }

  /** The fields all start empty. */
  const Blank := map["name" := "", "sku" := "", "category" := "", "price" := "", "cost" := "",
                     "stock" := "", "min_stock" := "", "supplier" := ""]

  /** The form's state: the shared form state plus `skuError`. */
  class ProductFormState {
    const form: Form
    var skuError: Option<string>

    constructor ()
      ensures fresh(form) && form.fields == Fields && form.validate == Validate && form.normalise == Normalise
      ensures form.inScope == AllFields
      ensures form.data == Blank && form.formErrors == map[] && !form.loading && skuError.None?
    {
      form := new Form(Fields, Validate, Normalise, AllFields, Blank);
      skuError := None;
    }

    /** The submit button: `disabled={loading || !!skuError || Object.values(formErrors).some(e => e)}`. */
    predicate SubmitDisabled()
      reads this, form
    {
      form.loading || (skuError.Some? && skuError.value != "") || SomeError(form.formErrors)
    }

    /** `handleChange`, which also clears `skuError` on a change of the SKU. */
    method Change(name: string, value: string)
      requires form.validate == Validate && form.normalise == Normalise
      modifies this, form
      ensures form.data == old(form.data)[name := Normalise(name, value)]
      ensures Get(old(form.formErrors), name) != "" ==> form.formErrors == old(form.formErrors)[name := Validate(name, Normalise(name, value))]
      ensures Get(old(form.formErrors), name) == "" ==> form.formErrors == old(form.formErrors)
      ensures skuError == if name == "sku" then None else old(skuError)
      ensures form.loading == old(form.loading)
    {
      form.Change(name, value);
      if name == "sku" {
        skuError := None;
      }
    }

    /**
     * `checkSkuUniqueness(sku)`, with `inUse` the answer of the lookup (a failed lookup counts
     * as free) and `errors` the `formErrors` the handler sees.
     */
    method CheckSku(sku: string, errors: map<string, string>, inUse: bool) returns (available: bool)
      modifies this
      ensures sku == "" || Get(errors, "sku") != "" ==> available && skuError.None?
      ensures sku != "" && Get(errors, "sku") == "" ==> available == !inUse && skuError == (if inUse then Some(SkuTaken) else None)
    {
      if sku == "" || Get(errors, "sku") != "" {
        skuError := None;
        return true;
      }
      if inUse {
        skuError := Some(SkuTaken);
        return false;
      }
      skuError := None;
      return true;
    }

    /**
     * `handleBlur`: the field's message is recorded and an accepted SKU is looked up. The lookup
     * sees `formErrors` as it was before this blur, which is what the handler's closure holds.
     */
    method Blur(name: string, value: string, inUse: bool)
      requires form.validate == Validate
      modifies this, form
      ensures form.formErrors == old(form.formErrors)[name := Validate(name, value)]
      ensures form.data == old(form.data) && form.loading == old(form.loading)
      ensures name == "sku" && Validate(name, value) == "" && Get(old(form.formErrors), "sku") == "" ==>
        skuError == (if inUse then Some(SkuTaken) else None)
      ensures name == "sku" && Validate(name, value) == "" && Get(old(form.formErrors), "sku") != "" ==> skuError.None?
      ensures !(name == "sku" && Validate(name, value) == "") ==> skuError == old(skuError)
    {
      var seen := form.formErrors;
      form.Blur(name, value);
      if name == "sku" && Validate(name, value) == "" {
        var _ := CheckSku(value, seen, inUse);
      }
    }

    /**
     * `handleSubmit` with the backend's answers as inputs: `inUse` for the SKU lookup,
     * `configured` and `signedIn` for the two guards, and `thrown` for the insert (None when it
     * succeeds, Some(Some(m)) for an `Error` with message `m`, Some(None) for anything else).
     * Returns the alert shown, if any, and whether the product was saved.
     */
    method Submit(inUse: bool, configured: bool, signedIn: bool, thrown: Option<Option<string>>)
      returns (alert: Option<string>, saved: bool)
      requires form.fields == Fields && form.validate == Validate && form.inScope == AllFields
      modifies this, form
      ensures var ok := forall i :: 0 <= i < |Fields| ==> Validate(Fields[i], Get(old(form.data), Fields[i])) == "";
        var free := Get(old(form.data), "sku") == "" || Get(old(form.formErrors), "sku") != "" || !inUse;
        var inserted := ok && free && configured && signedIn;
        && (!ok ==> form.formErrors == ErrorsOf(Fields, old(form.data), AllFields, Validate) && !saved && alert.None?)
        && (!ok ==> form.loading == old(form.loading) && skuError == old(skuError))
        && (ok ==> !form.loading)
        && (ok && !saved ==> form.formErrors == old(form.formErrors))
        && (!saved ==> form.data == old(form.data))
        && (ok && free && !(inserted && thrown.Some? && thrown.value.Some? && Contains(thrown.value.value, DuplicateKey))
          ==> skuError.None?)
        && (ok && !free ==> alert.None? && skuError == Some(SkuTaken))
        && (ok && free && !configured ==> alert == Some(NotConfigured))
        && (ok && free && configured && !signedIn ==> alert == Some(SignedOut))
        && (saved <==> inserted && thrown.None?)
        && (saved ==> form.data == Blank && form.formErrors == map[] && alert.None?)
        && (inserted && thrown == Some(None) ==> alert == Some(ConnectionFailed))
        && (inserted && thrown.Some? && thrown.value.Some? ==>
          if Contains(thrown.value.value, DuplicateKey) then alert.None? && skuError == Some(SkuTaken)
          else alert == Some(InsertFailed + thrown.value.value))
    {
      saved := false;
      alert := None;
      var proceed := form.Submit();
      if !proceed {
        return;
      }
      var available := CheckSku(Get(form.data, "sku"), form.formErrors, inUse);
      if !available {
        form.Settle();
        return;
      }
      if !configured {
        alert := Some(NotConfigured);
        form.Settle();
        return;
      }
      if !signedIn {
        alert := Some(SignedOut);
        form.Settle();
        return;
      }
      if thrown.None? {
        form.Open(Blank);
        saved := true;
      } else if thrown.value.Some? {
        if Contains(thrown.value.value, DuplicateKey) {
          skuError := Some(SkuTaken);
        } else {
          alert := Some(InsertFailed + thrown.value.value);
        }
      } else {
        alert := Some(ConnectionFailed);
      }
      form.Settle();
    }
  }

  /** A submit stopped by a failing field leaves the button disabled until the field is fixed. */
  lemma FailedSubmitDisables(data: map<string, string>)
    requires exists i :: 0 <= i < |Fields| && Validate(Fields[i], Get(data, Fields[i])) != ""
    ensures SomeError(ErrorsOf(Fields, data, AllFields, Validate))
  {
    var i :| 0 <= i < |Fields| && Validate(Fields[i], Get(data, Fields[i])) != "";
    ErrorsOfIff(Fields, data, AllFields, Validate, Fields[i]);
  }

  /** A field the form does not have never adds to the `errors` object. */
  lemma UnknownFieldsAccepted(name: string, value: string)
    requires name !in Fields
    ensures Validate(name, value) == ""
  {
  }
}
