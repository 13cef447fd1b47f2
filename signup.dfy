/**
 * The sign-up form of frontend/app/signup/page.tsx: each input writes its own field, and a
 * submit first checks the username and password lengths in that order, then raises the
 * loading flag, calls `signup` with the four fields and lowers the flag when the call is
 * over, whatever its outcome. `signup` (frontend/app/contexts/AuthContext.tsx) trims the
 * username, trims and lowercases the e-mail, and posts them to the server's `Register`.
 */
module Signup {
  import opened Wrappers
  import opened Text
  import Ledger
  import EmailSchema

  datatype Field = UsernameField | EmailField | PasswordField | DoshaField

  datatype Form = Form(username: string, email: string, password: string, dosha: string)

  function FieldOf(form: Form, f: Field): string {
    match f
    case UsernameField => form.username
    case EmailField => form.email
    case PasswordField => form.password
    case DoshaField => form.dosha
  }

  /** `{...formData, [name]: value}`. */
  function Updated(form: Form, f: Field, value: string): (r: Form)
    ensures FieldOf(r, f) == value
    ensures forall g :: g != f ==> FieldOf(r, g) == FieldOf(form, g)
  {
    match f
    case UsernameField => form.(username := value)
    case EmailField => form.(email := value)
    case PasswordField => form.(password := value)
    case DoshaField => form.(dosha := value)
  }

  /** The two client-side checks, each with its own error toast. */
  datatype ClientError = UsernameTooShort | PasswordTooShort

  /** The checks of `handleSubmit` as the page writes them: the username's length is taken
      before `signup` trims it. */
  function ValidateAsWritten(form: Form): (r: Option<ClientError>)
    ensures r == Some(UsernameTooShort) <==> |form.username| < 3
    ensures r == None <==> |form.username| >= 3 && |form.password| >= 6
  {
    if |form.username| < 3 then Some(UsernameTooShort)
    else if |form.password| < 6 then Some(PasswordTooShort)
    else None
  }

  /** The checks of `handleSubmit`, username first, on the username the server will see. */
  function Validate(form: Form): (r: Option<ClientError>)
    ensures r == Some(UsernameTooShort) <==> |Trim(form.username)| < 3
    ensures r == Some(PasswordTooShort) <==> |Trim(form.username)| >= 3 && |form.password| < 6
    ensures r == None <==> |Trim(form.username)| >= 3 && |form.password| >= 6
  {
    if |Trim(form.username)| < 3 then Some(UsernameTooShort)
    else if |form.password| < 6 then Some(PasswordTooShort)
    else None
  }

  /** The request `signup` posts for a form: username trimmed, e-mail trimmed and
      lowercased, password and dosha as typed. */
  function RequestOf(form: Form): (req: Ledger.SignupRequest)
    ensures req.username == Trim(form.username) && |req.username| <= |form.username|
    ensures req.email == ToLower(Trim(form.email))
    ensures req.password == form.password && req.dosha == Some(form.dosha)
  {
    Ledger.SignupRequest(Trim(form.username), ToLower(Trim(form.email)), form.password, Some(form.dosha))
  }

  /** A form the page lets through is never refused by the server for its lengths, and a
      form the page stops would not have been accepted by the server either. */
  lemma ClientChecksMatchServer(db: Ledger.Db, form: Form)
    ensures Validate(form) == None ==>
              Ledger.Register(db, RequestOf(form)).1 != Err(Ledger.UsernameTooShort)
              && Ledger.Register(db, RequestOf(form)).1 != Err(Ledger.PasswordTooShort)
    ensures Validate(form).Some? ==> Ledger.Register(db, RequestOf(form)).1.Err?
  {
  }

  /** A username whose padding makes it three characters long passes the page's own check,
      and the server, which sees it trimmed, refuses it as too short unless the name or the
      e-mail is already registered (that refusal comes first). */
  lemma PaddedNameSlipsThrough(db: Ledger.Db, form: Form)
    requires |form.username| >= 3 && |Trim(form.username)| < 3 && |form.password| >= 6
    requires EmailSchema.IsValidEmail(ToLower(Trim(form.email)))
    ensures ValidateAsWritten(form) == None
    ensures Ledger.Register(db, RequestOf(form)).1 == Err(Ledger.UsernameTooShort)
            <==> !Ledger.Taken(db.users, Trim(form.username), ToLower(Trim(form.email)))
  {
  }

  /** "ab " with the e-mail "a@b.cc" and the password "secret" is such a form. */
  lemma PaddedNameExample(form: Form)
    requires form == Form("ab ", "a@b.cc", "secret", "vata")
    ensures |form.username| >= 3 && |Trim(form.username)| < 3 && |form.password| >= 6
    ensures EmailSchema.IsValidEmail(ToLower(Trim(form.email)))
  {
    TrimmedPaddedName(form.username);
    ExampleEmailNormal(form.email);
  }

  lemma TrimmedPaddedName(u: string)
    requires u == "ab "
    ensures Trim(u) == "ab"
  {
    assert LeadingSpaces(u, 0) == 0;
    assert TrailingEnd(u, 0, 2) == 2;
    assert TrailingEnd(u, 0, 3) == 2;
    assert u[0..2] == "ab";
  }

  lemma ExampleEmailNormal(e: string)
    requires e == "a@b.cc"
    ensures ToLower(Trim(e)) == e && EmailSchema.IsValidEmail(e)
  {
    assert LeadingSpaces(e, 0) == 0;
    assert Trim(e) == e;
    LowersTo(e, e);
    EmailSchema.AcceptsShortAddress();
  }

  /** What the page tells the user once the call is over. */
  datatype Notice = AccountCreated | SignupFailed

  /** The toast as the page writes it: `signup` catches every error and answers `false`,
      and `handleSubmit` drops that answer, so its `catch` never runs. */
  function NoticeAsWritten(accepted: bool): Notice {
    AccountCreated
  }

  /** A signup the server refuses because the name is taken still ends in
      "Account Created!". */
  lemma TakenNameReportedAsCreated(db: Ledger.Db, form: Form)
    requires Validate(form) == None
    requires EmailSchema.IsValidEmail(ToLower(Trim(form.email)))
    requires Ledger.Taken(db.users, Trim(form.username), ToLower(Trim(form.email)))
    ensures Ledger.Register(db, RequestOf(form)).1 == Err(Ledger.AlreadyRegistered)
    ensures NoticeAsWritten(Ledger.Register(db, RequestOf(form)).1.Ok?) == AccountCreated
  {
  }

  /** The toast the page means to show: success exactly when `signup` succeeded. */
  function NoticeFor(accepted: bool): (o: Notice)
    ensures o == AccountCreated <==> accepted
  {
    if accepted then AccountCreated else SignupFailed
  }

  /** The page reports success exactly when the server registered the request. */
  lemma NoticeFollowsServer(db: Ledger.Db, form: Form)
    ensures NoticeFor(Ledger.Register(db, RequestOf(form)).1.Ok?) == AccountCreated
            <==> Validate(form) == None && EmailSchema.IsValidEmail(ToLower(Trim(form.email)))
                 && !Ledger.Taken(db.users, Trim(form.username), ToLower(Trim(form.email)))
  {
  }

  class SignupPage {
    var form: Form
    var loading: bool

    constructor ()
      ensures form == Form("", "", "", "vata") && !loading
    {
      form := Form("", "", "", "vata");
      loading := false;
    }

    /** `handleChange`: the input named `f` now holds `value`. */
    method HandleChange(f: Field, value: string)
      modifies this`form
      ensures form == Updated(old(form), f, value)
    {
      form := Updated(form, f, value);
    }

    /** The first half of `handleSubmit`, up to the `await`: a failed check gives its error
        and changes nothing; otherwise the loading flag goes up and the request goes out.
        The submit button is disabled while loading. */
    method Submit() returns (r: Result<Ledger.SignupRequest, ClientError>)
      requires !loading
      modifies this`loading
      ensures form == old(form)
      ensures Validate(form).Some? ==> r == Err(Validate(form).value) && !loading
      ensures Validate(form).None? ==> r == Ok(RequestOf(form)) && loading
    {
      var check := Validate(form);
      if check.Some? {
        return Err(check.value);
      }
      loading := true;
      r := Ok(RequestOf(form));
    }

    /** The rest of `handleSubmit` once `signup` has answered `accepted`: the toast, and the
        `finally` that lowers the loading flag on success and on failure alike. */
    method Settle(accepted: bool) returns (o: Notice)
      requires loading
      modifies this`loading
      ensures !loading
      ensures o == NoticeFor(accepted)
    {
      loading := false;
      o := NoticeFor(accepted);
    }
  }
}
