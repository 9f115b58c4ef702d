/**
 * What the three record forms (product, employee, customer) share: the `formData` and
 * `formErrors` state with its change, blur and submit handlers, the `errors` object that submit
 * fills field by field, and the two checks written as regular expressions or `parseFloat` in
 * more than one form.
 */
module Forms {
  import opened Wrappers
  import opened Seqs
  import opened Text
  import opened Masks

  /** `validateField(name, value)`: the message for the field, "" when it is accepted. */
  type Validator = (string, string) -> string

  /** `formData[name]`; a field the object does not hold reads as "". */
  function Get(m: map<string, string>, k: string): string {
    if k in m then m[k] else ""
  }

  /**
   * `/\S+@\S+\.\S+/.test(s)`, unanchored: somewhere a non-space character, then '@', then one
   * or more non-spaces up to a '.', then a non-space.
   */
  predicate MatchesEmail(s: string) {
    exists b, c :: 0 < b && b + 1 < c && c + 1 < |s| &&
      !IsSpace(s[b - 1]) && s[b] == '@' && s[c] == '.' && !IsSpace(s[c + 1]) && SpaceFreeBetween(s, b, c)
  }

  /** No white space strictly between positions `b` and `c`. */
  predicate SpaceFreeBetween(s: string, b: int, c: int)
    requires 0 <= b && c <= |s|
  {
    forall k :: b < k < c ==> !IsSpace(s[k])
  }

  predicate SpaceFree(s: string) {
    forall i :: 0 <= i < |s| ==> !IsSpace(s[i])
  }

  /** `user@host.tld` with three non-empty space-free parts passes, whatever surrounds it. */
  lemma EmailAccepted(before: string, user: string, host: string, tld: string, after: string)
    requires |user| > 0 && |host| > 0 && |tld| > 0
    requires SpaceFree(user) && SpaceFree(host) && SpaceFree(tld)
    ensures MatchesEmail(before + user + "@" + host + "." + tld + after)
  {
    var s := before + user + "@" + host + "." + tld + after;
    var b := |before| + |user|;
    var c := b + 1 + |host|;
    assert s[b - 1] == user[|user| - 1];
    assert s[b] == '@' && s[c] == '.';
    assert s[c + 1] == tld[0];
    assert forall k | b < k < c :: s[k] == host[k - b - 1];
  }

  /**
   * `!isNaN(parseFloat(s))`: after leading white space and an optional sign, the text starts
   * with "Infinity", with a digit, or with a dot followed by a digit.
   */
  predicate ParsesAsNumber(s: string) {
    var t := TrimStart(s);
    var u := if |t| > 0 && (t[0] == '+' || t[0] == '-') then t[1..] else t;
    IsPrefix("Infinity", u) || (|u| > 0 && IsDigit(u[0])) || (|u| > 1 && u[0] == '.' && IsDigit(u[1]))
  }

  /**
   * A value of digits and dots, such as the decimal normaliser produces, is a number exactly
   * when it starts with a digit or with a dot and a digit: "." and ".." are not.
   */
  lemma PlainDecimalParses(r: string)
    requires forall i :: 0 <= i < |r| ==> IsDigitOrDot(r[i])
    ensures ParsesAsNumber(r) <==> |r| > 0 && (IsDigit(r[0]) || (|r| > 1 && r[0] == '.' && IsDigit(r[1])))
  {
    if |r| > 0 {
      assert !IsSpace(r[0]);
      assert TrimStart(r) == r;
    } else {
      assert TrimStart(r) == r;
    }
  }

  /** The submit loop of a form that validates every one of its fields. */
  function AllFields(name: string): bool {
    true
  }

  /** The `errors` object after the submit loop has looked at `keys` in order. */
  function ErrorsOf(keys: seq<string>, data: map<string, string>, inScope: string -> bool, validate: Validator)
    : map<string, string>
    decreases |keys|
  {
    if keys == [] then map[]
    else
      var k := keys[|keys| - 1];
      var m := ErrorsOf(keys[..|keys| - 1], data, inScope, validate);
      var e := validate(k, Get(data, k));
      if inScope(k) && e != "" then m[k := e] else m
  }

  /** A field has an entry exactly when it is validated and its validator objects, and the entry is that objection. */
  lemma {:induction false} ErrorsOfIff(keys: seq<string>, data: map<string, string>, inScope: string -> bool,
                                       validate: Validator, k: string)
    ensures k in ErrorsOf(keys, data, inScope, validate) <==> k in keys && inScope(k) && validate(k, Get(data, k)) != ""
    ensures k in ErrorsOf(keys, data, inScope, validate) ==> ErrorsOf(keys, data, inScope, validate)[k] == validate(k, Get(data, k))
    decreases |keys|
  {
    if keys != [] {
      var u := keys[..|keys| - 1];
      ErrorsOfIff(u, data, inScope, validate, k);
      assert keys == u + [keys[|keys| - 1]];
    }
  }

  /** Submission goes ahead exactly when every validated field is accepted. */
  lemma NoErrorsIff(keys: seq<string>, data: map<string, string>, inScope: string -> bool, validate: Validator)
    ensures ErrorsOf(keys, data, inScope, validate) == map[] <==>
      forall i :: 0 <= i < |keys| && inScope(keys[i]) ==> validate(keys[i], Get(data, keys[i])) == ""
  {
    var m := ErrorsOf(keys, data, inScope, validate);
    forall i | 0 <= i < |keys|
      ensures keys[i] in m <==> inScope(keys[i]) && validate(keys[i], Get(data, keys[i])) != ""
    {
      ErrorsOfIff(keys, data, inScope, validate, keys[i]);
    }
    if m != map[] {
      var k :| k in m;
      ErrorsOfIff(keys, data, inScope, validate, k);
    }
  }

  /** Every entry of the `errors` object is a non-empty message. */
  lemma ErrorsNonEmpty(keys: seq<string>, data: map<string, string>, inScope: string -> bool, validate: Validator, k: string)
    requires k in ErrorsOf(keys, data, inScope, validate)
    ensures ErrorsOf(keys, data, inScope, validate)[k] != ""
  {
    ErrorsOfIff(keys, data, inScope, validate, k);
  }

  /** The submit loop: `Object.keys(formData).forEach(...)` filling `errors`. */
  method CollectErrors(keys: seq<string>, data: map<string, string>, inScope: string -> bool, validate: Validator)
    returns (errors: map<string, string>)
    ensures errors == ErrorsOf(keys, data, inScope, validate)
  {
    errors := map[];
    for i := 0 to |keys|
      invariant errors == ErrorsOf(keys[..i], data, inScope, validate)
    {
      var key := keys[i];
      var error := validate(key, Get(data, key));
      if inScope(key) && error != "" {
        errors := errors[key := error];
      }
      assert keys[..i + 1][..i] == keys[..i];
    }
    assert keys[..|keys|] == keys;
  }

  /** `Object.values(formErrors).some(e => e)`. */
  predicate SomeError(formErrors: map<string, string>) {
    exists k | k in formErrors :: formErrors[k] != ""
  }

  /** A form's state: its fields in declaration order, its validator and normaliser, `formData`, `formErrors` and `loading`. */
  class Form {
    const fields: seq<string>
    const validate: Validator
    const normalise: (string, string) -> string
    const inScope: string -> bool
    var data: map<string, string>
    var formErrors: map<string, string>
    var loading: bool

    constructor (fields: seq<string>, validate: Validator, normalise: (string, string) -> string,
                 inScope: string -> bool, initial: map<string, string>)
      ensures this.fields == fields && this.validate == validate && this.normalise == normalise && this.inScope == inScope
      ensures data == initial && formErrors == map[] && !loading
    {
      this.fields, this.validate, this.normalise, this.inScope := fields, validate, normalise, inScope;
      data, formErrors, loading := initial, map[], false;
    }

    /** The form is (re)opened with `initial`: the entries are replaced and the errors cleared. */
    method Open(initial: map<string, string>)
      modifies this
      ensures data == initial && formErrors == map[] && loading == old(loading)
    {
      data := initial;
      formErrors := map[];
    }

    /** `handleChange`: store the normalised value; re-validate only a field that is showing an error. */
    method Change(name: string, value: string)
      modifies this
      ensures data == old(data)[name := normalise(name, value)]
      ensures Get(old(formErrors), name) != "" ==> formErrors == old(formErrors)[name := validate(name, normalise(name, value))]
      ensures Get(old(formErrors), name) == "" ==> formErrors == old(formErrors)
      ensures loading == old(loading)
    {
      var v := normalise(name, value);
      data := data[name := v];
      if Get(formErrors, name) != "" {
        var error := validate(name, v);
        formErrors := formErrors[name := error];
      }
    }

    /** `handleBlur`: the field's message is recorded, "" included. */
    method Blur(name: string, value: string)
      modifies this
      ensures formErrors == old(formErrors)[name := validate(name, value)]
      ensures data == old(data) && loading == old(loading)
    {
      var error := validate(name, value);
      formErrors := formErrors[name := error];
    }

    /**
     * The synchronous start of `handleSubmit`: with any failing field the errors are shown and
     * nothing is sent; otherwise `loading` is set and the save goes ahead.
     */
    method Submit() returns (proceed: bool)
      modifies this
      ensures proceed <==> forall i :: 0 <= i < |fields| && inScope(fields[i]) ==> validate(fields[i], Get(data, fields[i])) == ""
      ensures !proceed ==> formErrors == ErrorsOf(fields, data, inScope, validate) && SomeError(formErrors) && loading == old(loading)
      ensures proceed ==> formErrors == old(formErrors) && loading
      ensures data == old(data)
    {
      var errors := CollectErrors(fields, data, inScope, validate);
      NoErrorsIff(fields, data, inScope, validate);
      if |errors| > 0 {
        var k :| k in errors;
        ErrorsNonEmpty(fields, data, inScope, validate, k);
        formErrors := errors;
        return false;
      }
      assert errors == map[];
      loading := true;
      return true;
    }

    /** The `finally` of the save, and every early return in it. */
    method Settle()
      modifies this
      ensures !loading && data == old(data) && formErrors == old(formErrors)
    {
      loading := false;
    }
  }

  const EmailRequired := "O email é obrigatório."
  const EmailInvalid := "Formato de email inválido."
  const NotConfigured := "Sistema não configurado."

  /** The `email` case of the employee and customer validators. */
  function EmailMessage(value: string): (r: string)
    ensures r == "" <==> value != "" && MatchesEmail(value)
    ensures value == "" <==> r == EmailRequired
  {
    if value == "" then EmailRequired
    else if !MatchesEmail(value) then EmailInvalid
    else ""
  }

  /** `x || ''`. */
  function OrEmpty(x: Option<string>): (r: string)
    ensures x.Some? ==> r == x.value
    ensures x.None? ==> r == ""
    ensures r == "" <==> !Truthy(x)
  {
    if Truthy(x) then x.value else ""
  }

  /** `value || null`: an empty entry is saved as null. */
  function NullIfEmpty(value: string): (r: Option<string>)
    ensures r.None? <==> value == ""
    ensures r.Some? ==> r.value == value
  {
    if value == "" then None else Some(value)
  }

  /**
   * The rest of `handleSubmit` once the fields pass, for the forms that save one record: the
   * configuration guard, the signed-in guard, and the save, whose failure is `failed`.
   * `sent` says whether the record reached the backend, `closed` whether the form closed.
   */
  method GuardedSave(form: Form, configured: bool, signedIn: bool, failed: bool, signedOutAlert: string, failedAlert: string)
    returns (alert: Option<string>, sent: bool, closed: bool)
    modifies form
    ensures !form.loading && form.data == old(form.data) && form.formErrors == old(form.formErrors)
    ensures sent <==> configured && signedIn
    ensures closed <==> sent && !failed
    ensures !configured ==> alert == Some(NotConfigured)
    ensures configured && !signedIn ==> alert == Some(signedOutAlert)
    ensures sent ==> alert == if failed then Some(failedAlert) else None
  {
    alert, sent, closed := None, false, false;
    if !configured {
      alert := Some(NotConfigured);
      form.Settle();
      return;
    }
    if !signedIn {
      alert := Some(signedOutAlert);
      form.Settle();
      return;
    }
    sent := true;
    if failed {
      alert := Some(failedAlert);
    } else {
      closed := true;
    }
    form.Settle();
  }
}
