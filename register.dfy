/**
 * The sign-up page: a form whose fields are updated one by one, a
 * password-confirmation check and the request it sends to `register`.
 */
module Register {
  import opened Wrappers
  import opened Models
  import opened Storage
  import opened AuthContext

  datatype Field = Email | Password | ConfirmPassword | FirstName | LastName | Age | Occupation | Description

  datatype RegisterForm = RegisterForm(
    email: string, password: string, confirmPassword: string, firstName: string,
    lastName: string, age: string, occupation: string, description: string)

  const EmptyForm := RegisterForm("", "", "", "", "", "", "", "")

  /** The value of the input named `f`. */
  function Get(form: RegisterForm, f: Field): string {
    match f
    case Email => form.email
    case Password => form.password
    case ConfirmPassword => form.confirmPassword
    case FirstName => form.firstName
    case LastName => form.lastName
    case Age => form.age
    case Occupation => form.occupation
    case Description => form.description
  }

  /** `{ ...prev, [name]: value }`: exactly the named input changes. */
  function WithField(form: RegisterForm, f: Field, value: string): (r: RegisterForm)
    ensures Get(r, f) == value
    ensures forall g :: g != f ==> Get(r, g) == Get(form, g)
  {
    match f
    case Email => form.(email := value)
    case Password => form.(password := value)
    case ConfirmPassword => form.(confirmPassword := value)
    case FirstName => form.(firstName := value)
    case LastName => form.(lastName := value)
    case Age => form.(age := value)
    case Occupation => form.(occupation := value)
    case Description => form.(description := value)
  }

  /**
   * The first argument of `register`: the text fields as typed, the age
   * parsed unless empty (then the key holds `undefined`), and the `ref`
   * query parameter unless missing or empty.  `parseInt` is a parameter.
   */
  function RegistrationRequest(form: RegisterForm, ref: Option<string>, parseInt: string -> int): (p: Patch)
    ensures p.email == Some(form.email) && p.firstName == Some(form.firstName) && p.lastName == Some(form.lastName)
    ensures p.occupation == Some(Some(form.occupation)) && p.description == Some(Some(form.description))
    ensures form.age == "" ==> p.age == Some(None)
    ensures form.age != "" ==> p.age == Some(Some(parseInt(form.age)))
    ensures ref.Some? && ref.value != "" ==> p.referrerId == Some(To(ref.value))
    ensures ref.None? || ref.value == "" ==> p.referrerId == Some(Absent)
    ensures p.id.None? && p.createdAt.None? && p.updatedAt.None? && p.isVerified.None?
    ensures p.qrCodeUrl.None? && p.freeHours.None? && p.role.None?
  {
    EmptyPatch.(
      email := Some(form.email),
      firstName := Some(form.firstName),
      lastName := Some(form.lastName),
      age := Some(if form.age != "" then Some(parseInt(form.age)) else None),
      occupation := Some(Some(form.occupation)),
      description := Some(Some(form.description)),
      referrerId := Some(if ref.Some? && ref.value != "" then To(ref.value) else Absent))
  }

  /**
   * The customer a sign-up creates carries the typed fields unchanged, the
   * parsed age, and the referrer from the link, or null without one.
   */
  lemma SignUpRecord(form: RegisterForm, ref: Option<string>, parseInt: string -> int, id: string, now: int)
    ensures var c := NewCustomer(RegistrationRequest(form, ref, parseInt), id, now);
      && c.email == form.email && c.firstName == form.firstName && c.lastName == form.lastName
      && c.occupation == Some(form.occupation) && c.description == Some(form.description)
      && c.age == (if form.age == "" then None else Some(parseInt(form.age)))
      && c.referrerId == (if ref.Some? && ref.value != "" then To(ref.value) else Null)
      && c.role == CustomerRole && !c.isVerified && c.freeHours == 0.0
  {
  }

  datatype Outcome = PasswordsDiffer | Failed | NavigateTo(path: string)

  class RegisterPage {
    var form: RegisterForm
    var isLoading: bool
    /** The `ref` query parameter. */
    const ref: Option<string>
    const auth: AuthProvider

    constructor(ref: Option<string>, auth: AuthProvider)
      ensures form == EmptyForm && !isLoading && this.ref == ref && this.auth == auth
    {
      form, isLoading := EmptyForm, false;
      this.ref, this.auth := ref, auth;
    }

    /** `handleChange`. */
    method HandleChange(f: Field, value: string)
      modifies this
      ensures form == WithField(old(form), f, value) && isLoading == old(isLoading)
    {
      form := WithField(form, f, value);
    }

    /**
     * `handleSubmit`: stops at mismatched passwords without calling
     * `register`; otherwise registers and navigates to the dashboard only
     * when that succeeds; either way loading has ended.
     */
    method HandleSubmit(freshId: string, now: int, parseInt: string -> int) returns (outcome: Outcome)
      modifies this, auth, auth.store
      ensures form == old(form)
      ensures form.password != form.confirmPassword ==>
                outcome == PasswordsDiffer && isLoading == old(isLoading)
                && auth.currentUser == old(auth.currentUser) && auth.store.items == old(auth.store.items)
      ensures form.password == form.confirmPassword ==>
                var request := RegistrationRequest(form, ref, parseInt);
                var ok := !EmailTaken(LoadCustomers(old(auth.store.items)), Some(form.email));
                && !isLoading
                && outcome == (if ok then NavigateTo("/dashboard") else Failed)
                && (ok ==> auth.store.items == Registered(old(auth.store.items), request, freshId, now)
                           && auth.currentUser == Some(NewCustomer(request, freshId, now)))
                && (!ok ==> auth.store.items == old(auth.store.items) && auth.currentUser == old(auth.currentUser))
      ensures auth.loading == old(auth.loading)
    {
      if form.password != form.confirmPassword {
        return PasswordsDiffer;
      }
      isLoading := true;
      var success := auth.Register(RegistrationRequest(form, ref, parseInt), form.password, freshId, now);
      outcome := if success then NavigateTo("/dashboard") else Failed;
      isLoading := false;
    }
  }
}
