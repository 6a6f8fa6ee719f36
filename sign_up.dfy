/** The sign-up page: the terms checkbox is checked first, then the password
    length; only then is a trial tenant requested, and on success the tenant
    and an admin session user are written to browser storage. */
module SignUp {
  import opened Common
  import Customers

  datatype SignUpForm = SignUpForm(companyName: string, contactName: string, email: string, phone: string, password: string)

  /** The body of the POST that creates the tenant. */
  datatype TenantRequest = TenantRequest(
    companyName: string, contactName: string, email: string, phone: string, password: string, plan: string)

  /** The server's answer: the created tenant, or a refusal with an optional `detail`. */
  datatype TenantResponse = Created(tenant: Customers.StoredTenant) | Refused(detail: Option<string>)

  /** The "4s_user" storage record. */
  datatype SessionUser = SessionUser(email: string, name: string, role: string, tenantId: int)

  datatype SubmitOutcome = MustAgreeToTerms | PasswordTooShort | Registered | Failed(message: string)

  const MinPasswordLength := 6

  /** The request a submission sends, or the reason it sends none; the terms come first. */
  function Validate(agreed: bool, form: SignUpForm): (r: Result<TenantRequest>)
    ensures !agreed ==> r.Failure?
    ensures agreed && |form.password| < 6 ==> r.Failure?
    ensures r.Success? <==> agreed && |form.password| >= 6
    ensures r.Success? ==>
      r.value.plan == "trial" && r.value.password == form.password &&
      r.value.companyName == form.companyName && r.value.contactName == form.contactName &&
      r.value.email == form.email && r.value.phone == form.phone
  {
    if !agreed then Failure(HttpError(0, "Please agree to the Terms of Service"))
    else if |form.password| < MinPasswordLength then Failure(HttpError(0, "Password must be at least 6 characters"))
    else Success(TenantRequest(form.companyName, form.contactName, form.email, form.phone, form.password, "trial"))
  }

  /** The message of a refused registration. */
  function FailureMessage(detail: Option<string>): (m: string)
    ensures m != ""
    ensures TruthyStr(detail) ==> m == detail.value
    ensures !TruthyStr(detail) ==> m == "Registration failed"
  {
    if TruthyStr(detail) then detail.value else "Registration failed"
  }

  class SignUpPage {
    var isLoading: bool
    var agreedToTerms: bool
    var form: SignUpForm
    /** Browser storage entries "4s_tenant" and "4s_user". */
    var storedTenant: Option<Customers.StoredTenant>
    var storedUser: Option<SessionUser>

    constructor ()
      ensures !isLoading && !agreedToTerms && form == SignUpForm("", "", "", "", "")
      ensures storedTenant == None && storedUser == None
    {
      isLoading := false;
      agreedToTerms := false;
      form := SignUpForm("", "", "", "", "");
      storedTenant := None;
      storedUser := None;
    }

    /** `handleSubmit`, given the server's answer to the tenant request. */
    method HandleSubmit(response: TenantResponse) returns (request: Option<TenantRequest>, outcome: SubmitOutcome)
      modifies this
      ensures !old(agreedToTerms) ==> request.None? && outcome == MustAgreeToTerms
      ensures old(agreedToTerms) && |old(form).password| < 6 ==> request.None? && outcome == PasswordTooShort
      ensures request.Some? <==> Validate(old(agreedToTerms), old(form)).Success?
      ensures request.Some? ==> request.value == Validate(old(agreedToTerms), old(form)).value
      ensures request.None? ==> isLoading == old(isLoading) && storedTenant == old(storedTenant) && storedUser == old(storedUser)
      ensures request.Some? ==> !isLoading
      ensures request.Some? && response.Created? ==>
        outcome == Registered &&
        storedTenant == Some(response.tenant) &&
        storedUser == Some(SessionUser(old(form).email, old(form).contactName, "admin", response.tenant.id))
      ensures request.Some? && response.Refused? ==>
        outcome == Failed(FailureMessage(response.detail)) &&
        storedTenant == old(storedTenant) && storedUser == old(storedUser)
      ensures form == old(form) && agreedToTerms == old(agreedToTerms)
    {
      if !agreedToTerms {
        return None, MustAgreeToTerms;
      }
      if |form.password| < MinPasswordLength {
        return None, PasswordTooShort;
      }
      isLoading := true;
      request := Some(TenantRequest(form.companyName, form.contactName, form.email, form.phone, form.password, "trial"));
      match response {
        case Refused(detail) =>
          outcome := Failed(FailureMessage(detail));
        case Created(tenant) =>
          storedTenant := Some(tenant);
          storedUser := Some(SessionUser(form.email, form.contactName, "admin", tenant.id));
          outcome := Registered;
      }
      isLoading := false;
    }
  }

  /** After a successful sign-up the customers page reads the new tenant's id from storage. */
  method SignUpThenTenantId(form: SignUpForm, tenant: Customers.StoredTenant) returns (tenantId: Option<int>)
    requires |form.password| >= MinPasswordLength
    ensures tenantId == Some(tenant.id)
  {
    var page := new SignUpPage();
    page.form := form;
    page.agreedToTerms := true;
    var request, outcome := page.HandleSubmit(Created(tenant));
    tenantId := Customers.TenantId(page.storedTenant);
  }
}
