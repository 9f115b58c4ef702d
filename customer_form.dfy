/**
 * The customer form: field checks, the masks applied while typing, the entries it opens with,
 * and the record it saves. The backend calls are inputs.
 */
module CustomerForm {
  import opened Wrappers
  import opened Text
  import opened Masks
  import opened Forms

  const Fields := ["name", "email", "phone", "company"]

  const NameRequired := "O nome é obrigatório."
  const PhoneRequired := "O telefone é obrigatório."
  const SignedOut := "Você precisa estar logado para gerenciar clientes."
  const SaveFailed := "Erro ao salvar cliente. Verifique se o email já não está cadastrado."

  /** `validateField`: name and phone are required, the email must look like one, the company is free. */
  function Validate(name: string, value: string): (r: string)
    ensures name == "name" ==> (r == "" <==> !AllSpace(value)) && (r != "" ==> r == NameRequired)
    ensures name == "email" ==> r == EmailMessage(value)
    ensures name == "phone" ==> (r == "" <==> !AllSpace(value)) && (r != "" ==> r == PhoneRequired)
    ensures name !in {"name", "email", "phone"} ==> r == ""
  {
    TrimEmptyIff(value);
    match name
    case "name" => if Trim(value) != "" then "" else NameRequired
    case "email" => EmailMessage(value)
    case "phone" => if Trim(value) != "" then "" else PhoneRequired
    case _ => ""
  }

  /** The `handleChange` normalisers: no digits in the name, the phone masked, the rest as typed. */
  function Normalise(name: string, value: string): string {
    match name
    case "name" => NameInput(value)
    case "phone" => PhoneMask(value)
    case _ => value
  }

  /** A masked phone is accepted exactly when at least one digit was typed. */
  lemma MaskedPhoneAccepted(v: string)
    ensures Validate("phone", Normalise("phone", v)) == "" <==> Digits(v) != ""
  {
    PhoneMaskBlankIff(v);
  }

  /**
   * The `errors` object holds exactly the failing fields among the four, with their messages;
   * the company never appears in it.
   */
  lemma SubmitErrors(data: map<string, string>, k: string)
    ensures k in ErrorsOf(Fields, data, AllFields, Validate) <==> k in Fields && Validate(k, Get(data, k)) != ""
    ensures k in ErrorsOf(Fields, data, AllFields, Validate) ==>
      ErrorsOf(Fields, data, AllFields, Validate)[k] == Validate(k, Get(data, k)) && k != "company"
  {
    ErrorsOfIff(Fields, data, AllFields, Validate, k);
  }

  /** The customer the table passes in; a missing or null attribute is None. */
  datatype Customer = Customer(name: Option<string>, email: Option<string>, phone: Option<string>, company: Option<string>)

  /** The entries the form opens with: the customer's four attributes (missing as ''), or all ''. */
  function Prefill(customer: Option<Customer>): (m: map<string, string>)
    ensures m.Keys == set k | k in Fields
    ensures customer.None? ==> forall k :: k in m ==> m[k] == ""
    ensures customer.Some? ==> var c := customer.value;
      m["name"] == OrEmpty(c.name) && m["email"] == OrEmpty(c.email)
      && m["phone"] == OrEmpty(c.phone) && m["company"] == OrEmpty(c.company)
  {
    if customer.Some? then
      var c := customer.value;
      map["name" := OrEmpty(c.name), "email" := OrEmpty(c.email), "phone" := OrEmpty(c.phone), "company" := OrEmpty(c.company)]
    else map["name" := "", "email" := "", "phone" := "", "company" := ""]
  }

  /** `customerData`. */
  datatype CustomerData = CustomerData(name: string, email: string, phone: string, company: Option<string>, status: string)

  /** The record saved: an empty company becomes null, and the status is always 'active'. */
  function Record(data: map<string, string>): (r: CustomerData)
    ensures r.status == "active"
    ensures r.company.None? <==> Get(data, "company") == ""
    ensures r.company.Some? ==> r.company.value == Get(data, "company")
    ensures r.name == Get(data, "name") && r.email == Get(data, "email") && r.phone == Get(data, "phone")
  {
    CustomerData(Get(data, "name"), Get(data, "email"), Get(data, "phone"), NullIfEmpty(Get(data, "company")), "active")
  }

  /** The effect that runs when the form is shown: it refills the entries and clears the errors. */
  method Open(form: Form, isOpen: bool, customer: Option<Customer>)
    modifies form
    ensures isOpen ==> form.data == Prefill(customer) && form.formErrors == map[]
    ensures !isOpen ==> form.data == old(form.data) && form.formErrors == old(form.formErrors)
    ensures form.loading == old(form.loading)
  {
    if isOpen {
      form.Open(Prefill(customer));
    }
  }

  /**
   * `handleSubmit`: check the four fields, then the guards and the save. `sent` is the record
   * sent to the backend, if it got that far; `failed` is the save's failure.
   */
  method Submit(form: Form, configured: bool, signedIn: bool, failed: bool)
    returns (alert: Option<string>, sent: Option<CustomerData>, closed: bool)
    requires form.fields == Fields && form.validate == Validate && form.inScope == AllFields
    modifies form
    ensures var ok := forall i :: 0 <= i < |Fields| ==> Validate(Fields[i], Get(old(form.data), Fields[i])) == "";
      && (!ok ==> form.formErrors == ErrorsOf(Fields, old(form.data), AllFields, Validate) && sent.None? && alert.None? && !closed)
      && (ok ==> !form.loading && form.formErrors == old(form.formErrors))
      && (!ok ==> form.loading == old(form.loading))
      && (sent.Some? <==> ok && configured && signedIn)
      && (sent.Some? ==> sent.value == Record(old(form.data)))
      && (closed <==> sent.Some? && !failed)
      && (ok && !configured ==> alert == Some(NotConfigured))
      && (ok && configured && !signedIn ==> alert == Some(SignedOut))
      && (sent.Some? ==> alert == if failed then Some(SaveFailed) else None)
    ensures form.data == old(form.data)
  {
    alert, sent, closed := None, None, false;
    var proceed := form.Submit();
    if !proceed {
      return;
    }
    var reached;
    alert, reached, closed := GuardedSave(form, configured, signedIn, failed,
      SignedOut, SaveFailed);
    if reached {
      sent := Some(Record(form.data));
    }
  }
}
