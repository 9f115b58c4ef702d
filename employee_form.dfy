/**
 * The employee form: field checks, the masks applied while typing, the entries it opens with,
 * and the record it saves. The backend calls are inputs; today's date, which the form reads from
 * the clock, is a parameter.
 */
module EmployeeForm {
  import opened Wrappers
  import opened Text
  import opened Masks
  import opened Forms

  const Fields := ["name", "email", "phone", "position", "department", "salary", "hire_date",
                   "address", "birth_date", "document_number"]

  /** The fields submit checks; the address, birth date and CPF never block a save. */
  const Checked := ["name", "email", "phone", "position", "department", "salary", "hire_date"]

  const Required := "Este campo é obrigatório."
  const SignedOut := "Você precisa estar logado para gerenciar funcionários."
  const SaveFailed := "Erro ao salvar funcionário. Verifique se o email já não está cadastrado."
  const PhoneRequired := "O telefone é obrigatório."
  const SalaryRequired := "O salário é obrigatório."
  const NotANumber := "Valor inválido."

  /** `validateField`. */
  function Validate(name: string, value: string): (r: string)
    ensures name in {"name", "position", "department", "hire_date"} ==> (r == "" <==> !AllSpace(value))
    ensures name == "email" ==> r == EmailMessage(value)
    ensures name == "phone" ==> (r == "" <==> !AllSpace(value))
    ensures name == "salary" ==> (r == "" <==> value != "" && ParsesAsNumber(value)) && (value == "" ==> r == SalaryRequired)
    ensures name !in Checked ==> r == ""
  {
    TrimEmptyIff(value);
    match name
    case "name" | "position" | "department" | "hire_date" => if Trim(value) != "" then "" else Required
    case "email" => EmailMessage(value)
    case "phone" => if Trim(value) != "" then "" else PhoneRequired
    case "salary" =>
      if value == "" then SalaryRequired
      else if !ParsesAsNumber(value) then NotANumber
      else ""
    case _ => ""
  }

  /** The `includes` test of the submit loop. */
  function InScope(name: string): bool {
    name in Checked
  }

  /** The `handleChange` normalisers. */
  function Normalise(name: string, value: string): string {
    match name
    case "name" => NameInput(value)
    case "salary" => DecimalInput(value)
    case "phone" => PhoneMask(value)
    case "document_number" => DocumentMask(value)
    case _ => value
  }

  /** Only the checked fields can appear in the `errors` object. */
  lemma ErrorsOnlyOnChecked(data: map<string, string>, k: string)
    requires k in ErrorsOf(Fields, data, InScope, Validate)
    ensures k in Checked
  {
    ErrorsOfIff(Fields, data, InScope, Validate, k);
  }

  /** A masked phone is accepted exactly when at least one digit was typed. */
  lemma MaskedPhoneAccepted(v: string)
    ensures Validate("phone", Normalise("phone", v)) == "" <==> Digits(v) != ""
  {
    PhoneMaskBlankIff(v);
  }

  /** The employee the table passes in; a missing or null attribute is None. */
  datatype Employee = Employee(
    name: Option<string>, email: Option<string>, phone: Option<string>, position: Option<string>,
    department: Option<string>, salary: Option<string>, hireDate: Option<string>, address: Option<string>,
    birthDate: Option<string>, documentNumber: Option<string>)

  /** `x ? x.split('T')[0] : fallback`. */
  function DatePart(x: Option<string>, fallback: string): (r: string)
    ensures Truthy(x) ==> r == BeforeFirst(x.value, 'T')
    ensures !Truthy(x) ==> r == fallback
  {
    if Truthy(x) then BeforeFirst(x.value, 'T') else fallback
  }

  /** `employee[k]` for a field of the form; None for any other name. */
  function Attribute(e: Employee, k: string): Option<string> {
    match k
    case "name" => e.name
    case "email" => e.email
    case "phone" => e.phone
    case "position" => e.position
    case "department" => e.department
    case "salary" => e.salary
    case "hire_date" => e.hireDate
    case "address" => e.address
    case "birth_date" => e.birthDate
    case "document_number" => e.documentNumber
    case _ => None
  }

  /**
   * The entries for an existing employee: every field of the form, a missing or empty attribute
   * as '', and the two dates cut at their first 'T' (the hire date falling back to `today`).
   */
  function FromEmployee(e: Employee, today: string): (m: map<string, string>)
    ensures m.Keys == set k | k in Fields
    ensures forall k :: k in m && k != "hire_date" && k != "birth_date" ==>
      (m[k] == "" <==> !Truthy(Attribute(e, k))) && (Truthy(Attribute(e, k)) ==> m[k] == Attribute(e, k).value)
    ensures "birth_date" in m && 'T' !in m["birth_date"] && IsPrefix(m["birth_date"], e.birthDate.GetOr(""))
    ensures "hire_date" in m && (Truthy(e.hireDate) ==> 'T' !in m["hire_date"] && IsPrefix(m["hire_date"], e.hireDate.value))
    ensures "hire_date" in m && (!Truthy(e.hireDate) ==> m["hire_date"] == today)
  {
    assert "birth_date" == Fields[8] && "hire_date" == Fields[6];
    map k | k in Fields :: if k == "hire_date" then DatePart(e.hireDate, today)
      else if k == "birth_date" then DatePart(e.birthDate, "") else OrEmpty(Attribute(e, k))
  }

  /** The entries for a new employee: all '' except the hire date, which is `today`. */
  function NewEntries(today: string): (m: map<string, string>)
    ensures m.Keys == set k | k in Fields
    ensures forall k :: k in m ==> m[k] == (if k == "hire_date" then today else "")
  {
    map["name" := "", "email" := "", "phone" := "", "position" := "", "department" := "",
        "salary" := "", "hire_date" := today, "address" := "", "birth_date" := "", "document_number" := ""]
  }

  /**
   * The entries the form opens with, for an existing employee or a new one. `salary` is the text
   * `salary.toString()` gives. A prefilled date holds no time part.
   */
  function Prefill(employee: Option<Employee>, today: string): (m: map<string, string>)
    ensures m.Keys == set k | k in Fields
    ensures 'T' !in today ==> 'T' !in Get(m, "hire_date") && 'T' !in Get(m, "birth_date")
  {
    if employee.Some? then FromEmployee(employee.value, today) else NewEntries(today)
  }

  /** `employeeData`; `salaryText` is the text handed to `parseFloat`. */
  datatype EmployeeData = EmployeeData(
    name: string, email: string, phone: string, position: string, department: string,
    salaryText: string, hireDate: string,
    address: Option<string>, birthDate: Option<string>, documentNumber: Option<string>, status: string)

  /** The record saved: the optional fields empty become null, and the status is always 'active'. */
  function Record(data: map<string, string>): (r: EmployeeData)
    ensures r.status == "active"
    ensures r.address.None? <==> Get(data, "address") == ""
    ensures r.birthDate.None? <==> Get(data, "birth_date") == ""
    ensures r.documentNumber.None? <==> Get(data, "document_number") == ""
    ensures r.name == Get(data, "name") && r.email == Get(data, "email") && r.hireDate == Get(data, "hire_date")
  {
    EmployeeData(
      Get(data, "name"), Get(data, "email"), Get(data, "phone"), Get(data, "position"), Get(data, "department"),
      Get(data, "salary"), Get(data, "hire_date"),
      NullIfEmpty(Get(data, "address")), NullIfEmpty(Get(data, "birth_date")),
      NullIfEmpty(Get(data, "document_number")), "active")
  }

  /**
   * `handleSubmit`: check the fields, then the guards and the save. `sent` is the record sent
   * to the backend, if it got that far.
   */
  method Submit(form: Form, configured: bool, signedIn: bool, failed: bool)
    returns (alert: Option<string>, sent: Option<EmployeeData>, closed: bool)
    requires form.fields == Fields && form.validate == Validate && form.inScope == InScope
    modifies form
    ensures var ok := forall i :: 0 <= i < |Fields| && InScope(Fields[i]) ==> Validate(Fields[i], Get(old(form.data), Fields[i])) == "";
      && (!ok ==> form.formErrors == ErrorsOf(Fields, old(form.data), InScope, Validate) && sent.None? && alert.None? && !closed)
      && (ok ==> !form.loading && form.formErrors == old(form.formErrors))
      && (!ok ==> form.loading == old(form.loading))
      && (sent.Some? <==> ok && configured && signedIn)
      && (sent.Some? ==> sent.value == Record(old(form.data)))
      && (closed <==> sent.Some? && !failed)
      && (ok && !configured ==> alert == Some(NotConfigured))
      && (ok && configured && !signedIn ==> alert == Some(SignedOut))
      && (sent.Some? ==> alert == if failed then Some(SaveFailed) else None)
    ensures form.data == old(form.data)
  {
    alert, sent, closed := None, None, false;
    var proceed := form.Submit();
    if !proceed {
      return;
    }
    var reached;
    alert, reached, closed := GuardedSave(form, configured, signedIn, failed,
      SignedOut, SaveFailed);
    if reached {
      sent := Some(Record(form.data));
    }
  }
}
