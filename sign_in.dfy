/**
 * The sign-in and sign-up dialog (src/components/SignInModal.tsx): the
 * account list kept in browser storage under `skyways_users`, the form's
 * validation chain, and the submit handler that creates an account or looks
 * one up and makes it the session user.
 */
module SignIn {
  import opened Types
  import opened Text
  import opened AppStore

  /** `getStoredUsers`: the stored account list, or none when it cannot be read. */
  function GetStoredUsers(storage: Storage): (users: seq<StoredUser>)
    ensures UsersKey !in storage ==> users == []
    ensures UsersKey in storage && storage[UsersKey].UserList? ==> users == storage[UsersKey].users
    ensures UsersKey in storage && !storage[UsersKey].UserList? ==> users == []
  {
    match ReadUsers(storage)
    case Some(list) => list
    case None => []
  }

  /**
   * `saveUser`: the list read back, with the new account appended, written
   * under `skyways_users`; no other key changes.
   */
  function SaveUser(storage: Storage, u: StoredUser): (r: Storage)
    ensures GetStoredUsers(r) == GetStoredUsers(storage) + [u]
    ensures forall k :: k != UsersKey ==> (k in r <==> k in storage) && (k in r ==> r[k] == storage[k])
  {
    storage[UsersKey := UserList(GetStoredUsers(storage) + [u])]
  }

  /** Saving keeps every earlier account where it was and adds exactly one. */
  lemma SaveUserKeepsAccounts(storage: Storage, u: StoredUser)
    ensures var before := GetStoredUsers(storage);
      var after := GetStoredUsers(SaveUser(storage, u));
      && |after| == |before| + 1
      && after[..|before|] == before
      && after[|before|] == u
  {
    var before := GetStoredUsers(storage);
    var after := GetStoredUsers(SaveUser(storage, u));
    assert after == before + [u];
  }

  predicate Credentials(u: StoredUser, email: string, password: string)
  {
    u.email == email && u.password == password
  }

  /** `findUser`: the first account whose email and password are exactly the ones given. */
  function FindUser(users: seq<StoredUser>, email: string, password: string): (r: Option<StoredUser>)
    ensures r.None? <==> forall i :: 0 <= i < |users| ==> !Credentials(users[i], email, password)
    ensures r.Some? ==> exists i :: (0 <= i < |users| && users[i] == r.value
      && Credentials(users[i], email, password)
      && forall j :: 0 <= j < i ==> !Credentials(users[j], email, password))
  {
    if users == [] then None
    else if Credentials(users[0], email, password) then Some(users[0])
    else
      var r := FindUser(users[1..], email, password);
      assert forall i :: 0 < i < |users| ==> users[i] == users[1..][i - 1];
      r
  }

  /** `emailExists`: some account has exactly this email. */
  function EmailExists(users: seq<StoredUser>, email: string): (b: bool)
    ensures b <==> exists i :: 0 <= i < |users| && users[i].email == email
  {
    if users == [] then false
    else if users[0].email == email then true
    else
      assert forall i :: 0 < i < |users| ==> users[i] == users[1..][i - 1];
      EmailExists(users[1..], email)
  }

  /** The dialog's input fields. */
  datatype Form = Form(
    email: string,
    password: string,
    confirmPassword: string,
    firstName: string,
    lastName: string,
    phone: string,
    dateOfBirth: string)

  const EmptyForm: Form := Form("", "", "", "", "", "", "")

  /** The names `handleInputChange` is called with. */
  datatype FormField = EmailField | PasswordField | ConfirmField | FirstNameField | LastNameField | PhoneField | BirthField

  /** The form with one field replaced. */
  function WithField(f: Form, field: FormField, value: string): Form
  {
    match field
    case EmailField => f.(email := value)
    case PasswordField => f.(password := value)
    case ConfirmField => f.(confirmPassword := value)
    case FirstNameField => f.(firstName := value)
    case LastNameField => f.(lastName := value)
    case PhoneField => f.(phone := value)
    case BirthField => f.(dateOfBirth := value)
  }

  /** Why `validateForm` refused the form (the message shown). */
  datatype FormError =
    | MissingCredentials
    | InvalidEmail
    | ShortPassword
    | MissingName
    | MissingPhone
    | MissingDateOfBirth
    | PasswordMismatch
    | EmailTaken

  /**
   * The first three checks, common to both modes. The password length is
   * JavaScript's, in UTF-16 code units.
   */
  function BasicCheck(f: Form): (r: Option<FormError>)
    ensures r == Some(MissingCredentials) <==> f.email == "" || f.password == ""
    ensures r == Some(InvalidEmail) <==>
      f.email != "" && f.password != "" && !(Contains(f.email, "@") && Contains(f.email, "."))
    ensures r == Some(ShortPassword) <==>
      f.email != "" && f.password != "" && Contains(f.email, "@") && Contains(f.email, ".") && Utf16Length(f.password) < 6
    ensures r.None? <==>
      f.email != "" && Contains(f.email, "@") && Contains(f.email, ".") && Utf16Length(f.password) >= 6
  {
    if f.email == "" || f.password == "" then Some(MissingCredentials)
    else if !Contains(f.email, "@") || !Contains(f.email, ".") then Some(InvalidEmail)
    else if Utf16Length(f.password) < 6 then Some(ShortPassword)
    else None
  }

  /** Three emoji make a six-unit password, which the length check accepts. */
  lemma EmojiPasswordLongEnough()
    ensures var pw := "\U{1F600}\U{1F600}\U{1F600}";
      |pw| == 3 && Utf16Length(pw) == 6
      && BasicCheck(Form("a@b.c", pw, pw, "", "", "", "")).None?
  {
    var pw := "\U{1F600}\U{1F600}\U{1F600}";
    assert pw[1..][1..][1..] == [];
    assert Contains("a@b.c", "@") by { ContainsAt("a@b.c", "@", 1); }
    assert Contains("a@b.c", ".") by { ContainsAt("a@b.c", ".", 3); }
  }

  /**
   * `validateForm`: the common checks, then in sign-up mode names, phone,
   * date of birth, matching confirmation and an email not yet stored, first
   * failure wins. `lookup` is the email the duplicate check searches for:
   * the source passes the email as typed (`SubmitOutcome`); the corrected
   * check passes it as the account will store it (`CorrectedSubmitOutcome`).
   */
  function ValidateForm(f: Form, isSignUp: bool, users: seq<StoredUser>, lookup: string): (r: Option<FormError>)
    ensures BasicCheck(f).Some? ==> r == BasicCheck(f)
    ensures BasicCheck(f).None? && !isSignUp ==> r.None?
    ensures BasicCheck(f).None? && isSignUp ==>
      && (r == Some(MissingName) <==> f.firstName == "" || f.lastName == "")
      && (r == Some(MissingPhone) <==> f.firstName != "" && f.lastName != "" && f.phone == "")
      && (r == Some(MissingDateOfBirth) <==>
            f.firstName != "" && f.lastName != "" && f.phone != "" && f.dateOfBirth == "")
      && (r == Some(PasswordMismatch) <==>
            f.firstName != "" && f.lastName != "" && f.phone != "" && f.dateOfBirth != ""
            && f.password != f.confirmPassword)
      && (r == Some(EmailTaken) <==> SignUpComplete(f) && EmailExists(users, lookup))
    ensures r.None? <==>
      BasicCheck(f).None? && (isSignUp ==> SignUpComplete(f) && !EmailExists(users, lookup))
  {
    if BasicCheck(f).Some? then BasicCheck(f)
    else if !isSignUp then None
    else if f.firstName == "" || f.lastName == "" then Some(MissingName)
    else if f.phone == "" then Some(MissingPhone)
    else if f.dateOfBirth == "" then Some(MissingDateOfBirth)
    else if f.password != f.confirmPassword then Some(PasswordMismatch)
    else if EmailExists(users, lookup) then Some(EmailTaken)
    else None
  }

  predicate SignUpComplete(f: Form)
  {
    f.firstName != "" && f.lastName != "" && f.phone != "" && f.dateOfBirth != ""
    && f.password == f.confirmPassword
  }

  /** The email as accounts store it and sign-in looks it up: trimmed, then lower-cased. */
  function NormalEmail(email: string): (r: string)
    ensures |r| <= |email|
    ensures r == [] || (!IsWhitespace(r[0]) && !IsWhitespace(r[|r| - 1]))
    ensures forall i :: 0 <= i < |r| ==> !('A' <= r[i] <= 'Z')
    ensures var t := Trim(email); |r| == |t| && forall i :: 0 <= i < |r| ==> r[i] == LowerChar(t[i])
  {
    LowerKeepsEnds(Trim(email));
    ToLower(Trim(email))
  }

  /** Lower-casing keeps the length and the non-whitespace ends, and leaves no upper-case letter. */
  lemma LowerKeepsEnds(t: string)
    requires t == [] || (!IsWhitespace(t[0]) && !IsWhitespace(t[|t| - 1]))
    ensures var r := ToLower(t);
      && |r| == |t|
      && (r == [] || (!IsWhitespace(r[0]) && !IsWhitespace(r[|r| - 1])))
      && forall i :: 0 <= i < |r| ==> !('A' <= r[i] <= 'Z')
  {
    var r := ToLower(t);
    if t != [] {
      assert r[0] == LowerChar(t[0]);
      assert r[|r| - 1] == LowerChar(t[|t| - 1]);
    }
  }

  /**
   * The account sign-up creates: the email normalised, names and phone
   * trimmed, the password and date of birth as typed. Id and creation time
   * come from the random generator and the clock.
   */
  function NewAccount(f: Form, id: string, now: string): (u: StoredUser)
    ensures u.email == NormalEmail(f.email) && u.password == f.password
    ensures u.firstName == Trim(f.firstName) && u.lastName == Trim(f.lastName) && u.phone == Trim(f.phone)
    ensures u.dateOfBirth == f.dateOfBirth && u.id == id && u.createdAt == now
  {
    StoredUser(id, NormalEmail(f.email), f.password, Trim(f.firstName), Trim(f.lastName), Trim(f.phone),
               f.dateOfBirth, now)
  }

  /** `const { password, ...userWithoutPassword } = user`: every field but the password. */
  function WithoutPassword(u: StoredUser): (r: User)
    ensures r.id == u.id && r.email == u.email && r.firstName == u.firstName
    ensures r.lastName == u.lastName && r.phone == u.phone && r.dateOfBirth == u.dateOfBirth
  {
    User(u.id, u.email, u.firstName, u.lastName, u.phone, u.dateOfBirth)
  }

  /** How a submit ends. */
  datatype Outcome =
    | Refused(error: FormError)
    | Created(account: StoredUser)
    | Found(account: StoredUser)
    | NoMatch

  /**
   * `handleSubmit`'s decision, the storage read when the delayed block runs,
   * with the duplicate check searching for `lookup`.
   */
  function Decide(f: Form, isSignUp: bool, storage: Storage, id: string, now: string, lookup: string): (o: Outcome)
    ensures ValidateForm(f, isSignUp, GetStoredUsers(storage), lookup).Some? <==> o.Refused?
    ensures o.Refused? ==> o.error == ValidateForm(f, isSignUp, GetStoredUsers(storage), lookup).value
    ensures o.Created? <==> ValidateForm(f, isSignUp, GetStoredUsers(storage), lookup).None? && isSignUp
    ensures o.Created? ==> o.account == NewAccount(f, id, now)
    ensures o.Found? ==> (!isSignUp
      && o.account in GetStoredUsers(storage)
      && o.account.email == NormalEmail(f.email) && o.account.password == f.password)
    ensures o.NoMatch? <==> (ValidateForm(f, isSignUp, GetStoredUsers(storage), lookup).None? && !isSignUp
      && forall u :: u in GetStoredUsers(storage) ==> !Credentials(u, NormalEmail(f.email), f.password))
  {
    var users := GetStoredUsers(storage);
    match ValidateForm(f, isSignUp, users, lookup)
    case Some(e) => Refused(e)
    case None =>
      if isSignUp then Created(NewAccount(f, id, now))
      else match FindUser(users, NormalEmail(f.email), f.password)
        case Some(u) => Found(u)
        case None => NoMatch
  }

  /**
   * `handleSubmit`'s decision as written: the duplicate check searches for
   * the email as typed, sign-in for the normalised email. A sign-up is
   * created exactly when the form is complete and no stored account has the
   * typed email; a sign-in finds the first account with the normalised email
   * and the password, and reports bad credentials exactly when there is none.
   */
  function SubmitOutcome(f: Form, isSignUp: bool, storage: Storage, id: string, now: string): (o: Outcome)
    ensures o.Refused? <==> ValidateForm(f, isSignUp, GetStoredUsers(storage), f.email).Some?
    ensures o.Created? <==> (isSignUp && BasicCheck(f).None? && SignUpComplete(f)
      && !EmailExists(GetStoredUsers(storage), f.email))
    ensures o.Created? ==> o.account == NewAccount(f, id, now)
    ensures o.Found? ==> (!isSignUp
      && o.account in GetStoredUsers(storage)
      && o.account.email == NormalEmail(f.email) && o.account.password == f.password)
    ensures o.NoMatch? <==> (!isSignUp && BasicCheck(f).None?
      && forall u :: u in GetStoredUsers(storage) ==> !Credentials(u, NormalEmail(f.email), f.password))
  {
    Decide(f, isSignUp, storage, id, now, f.email)
  }

  /**
   * The corrected decision: the duplicate check searches for the email as the
   * account will store it. It differs from the decision as written only on a
   * sign-up whose typed email is not already normalised.
   */
  function CorrectedSubmitOutcome(f: Form, isSignUp: bool, storage: Storage, id: string, now: string): (o: Outcome)
    ensures o.Created? <==> (isSignUp && BasicCheck(f).None? && SignUpComplete(f)
      && !EmailExists(GetStoredUsers(storage), NormalEmail(f.email)))
    ensures o.Created? ==> o.account == NewAccount(f, id, now)
    ensures !isSignUp || NormalEmail(f.email) == f.email ==> o == SubmitOutcome(f, isSignUp, storage, id, now)
  {
    Decide(f, isSignUp, storage, id, now, NormalEmail(f.email))
  }

  /** An account just created can be signed into with the email and password typed at sign-up. */
  lemma SignUpThenSignIn(f: Form, storage: Storage, id: string, now: string, later: string)
    requires SubmitOutcome(f, true, storage, id, now).Created?
    ensures var saved := SaveUser(storage, NewAccount(f, id, now));
      SubmitOutcome(f, false, saved, id, later).Found?
  {
    var u := NewAccount(f, id, now);
    var saved := SaveUser(storage, u);
    var users := GetStoredUsers(saved);
    assert users[|users| - 1] == u;
    assert Credentials(users[|users| - 1], NormalEmail(f.email), f.password);
  }

  /** What the dialog shows after a submit. */
  datatype Notice =
    | Failed(error: FormError)
    | BadCredentials
    | AccountCreated
    | WelcomeBack

  /** The message is an error rather than a welcome. */
  predicate ShowsError(n: Option<Notice>)
  {
    n.Some? && (n.value.Failed? || n.value.BadCredentials?)
  }

  /** The dialog's state cells. */
  class SignInDialog {
    var isSignUp: bool
    var form: Form
    var notice: Option<Notice>

    constructor ()
      ensures !isSignUp && form == EmptyForm && notice.None?
    {
      isSignUp := false;
      form := EmptyForm;
      notice := None;
    }

    /**
     * `handleSubmit`, with its delayed block taken as one step: a refused
     * form or unknown credentials leave the store alone and show the error;
     * sign-up saves the account and signs it in; sign-in signs in the first
     * matching account. The session user never carries the password. The
     * form and the mode stay as they were until the dialog closes.
     */
    method Submit(app: App, id: string, now: string)
      modifies this, app
      ensures isSignUp == old(isSignUp) && form == old(form)
      ensures var o := SubmitOutcome(old(form), old(isSignUp), old(app.storage), id, now);
        match o
        case Refused(e) =>
          notice == Some(Failed(e)) && app.Current() == old(app.Current())
        case NoMatch =>
          notice == Some(BadCredentials) && app.Current() == old(app.Current())
        case Created(u) =>
          && notice == Some(AccountCreated)
          && app.Current() == Reduce(Snapshot(old(app.state), SaveUser(old(app.storage), u)),
                                     SetUser(Some(WithoutPassword(u))))
        case Found(u) =>
          && notice == Some(WelcomeBack)
          && app.Current() == Reduce(old(app.Current()), SetUser(Some(WithoutPassword(u))))
    {
      ghost var outcome := SubmitOutcome(form, isSignUp, app.storage, id, now);
      var users := GetStoredUsers(app.storage);
      var error := ValidateForm(form, isSignUp, users, form.email);
      if error.Some? {
        assert outcome == Refused(error.value);
        notice := Some(Failed(error.value));
        return;
      }
      if isSignUp {
        var account := NewAccount(form, id, now);
        assert outcome == Created(account);
        app.storage := SaveUser(app.storage, account);
        app.Dispatch(SetUser(Some(WithoutPassword(account))));
        notice := Some(AccountCreated);
      } else {
        var found := FindUser(users, NormalEmail(form.email), form.password);
        if found.Some? {
          assert outcome == Found(found.value);
          app.Dispatch(SetUser(Some(WithoutPassword(found.value))));
          notice := Some(WelcomeBack);
        } else {
          assert outcome == NoMatch;
          notice := Some(BadCredentials);
        }
      }
    }

    /**
     * `resetForm`, run when the dialog closes (after a successful submit, or
     * from the close button): an empty form, no message, sign-in mode.
     */
    method Close()
      modifies this
      ensures form == EmptyForm && notice.None? && !isSignUp
    {
      form := EmptyForm;
      notice := None;
      isSignUp := false;
    }

    /**
     * `handleInputChange`: typing sets one field and clears an error message;
     * a success message stays.
     */
    method Input(field: FormField, value: string)
      modifies this
      ensures form == WithField(old(form), field, value) && isSignUp == old(isSignUp)
      ensures ShowsError(old(notice)) ==> notice.None?
      ensures !ShowsError(old(notice)) ==> notice == old(notice)
    {
      form := WithField(form, field, value);
      if ShowsError(notice) {
        notice := None;
      }
    }

    /**
     * `toggleMode`: switch between sign-in and sign-up, clear the message and
     * every field but the email.
     */
    method ToggleMode()
      modifies this
      ensures isSignUp == !old(isSignUp) && notice.None?
      ensures form == EmptyForm.(email := old(form).email)
    {
      isSignUp := !isSignUp;
      notice := None;
      form := EmptyForm.(email := form.email);
    }
  }

  // ---------------------------------------------------------------------
  // The duplicate-email check

  /** No two accounts share an email. */
  predicate UniqueEmails(users: seq<StoredUser>)
  {
    forall i, j :: 0 <= i < j < |users| ==> users[i].email != users[j].email
  }

  /**
   * The check as written looks the typed email up, while the account stores
   * it normalised: a typed email that differs from a stored one but
   * normalises to it passes sign-up, and saving the account gives two
   * accounts the same email.
   */
  lemma NormalisedDuplicateAccepted(f: Form, stored: StoredUser, id: string, now: string)
    requires BasicCheck(f).None? && SignUpComplete(f)
    requires f.email != stored.email && NormalEmail(f.email) == stored.email
    ensures var storage := map[UsersKey := UserList([stored])];
      && UniqueEmails(GetStoredUsers(storage))
      && ValidateForm(f, true, GetStoredUsers(storage), f.email).None?
      && SubmitOutcome(f, true, storage, id, now) == Created(NewAccount(f, id, now))
      && !UniqueEmails(GetStoredUsers(SaveUser(storage, NewAccount(f, id, now))))
      && CorrectedSubmitOutcome(f, true, storage, id, now) == Refused(EmailTaken)
  {
    var storage := map[UsersKey := UserList([stored])];
    assert GetStoredUsers(storage) == [stored];
    assert !EmailExists([stored], f.email);
    assert EmailExists([stored], NormalEmail(f.email));
    var after := GetStoredUsers(SaveUser(storage, NewAccount(f, id, now)));
    assert after == [stored, NewAccount(f, id, now)];
    assert after[0].email == after[1].email;
  }

  /** With `a@b.c` stored, the check as written lets `A@b.c` sign up, and a second `a@b.c` account is saved. */
  lemma DuplicateEmailAccepted()
    ensures var stored := StoredUser("u1", "a@b.c", "secret", "Ann", "Lee", "1", "2000-01-01", "t0");
      var storage := map[UsersKey := UserList([stored])];
      var f := Form("A@b.c", "secret", "secret", "Ann", "Lee", "1", "2000-01-01");
      && UniqueEmails(GetStoredUsers(storage))
      && ValidateForm(f, true, GetStoredUsers(storage), f.email).None?
      && SubmitOutcome(f, true, storage, "u2", "t1") == Created(NewAccount(f, "u2", "t1"))
      && !UniqueEmails(GetStoredUsers(SaveUser(storage, NewAccount(f, "u2", "t1"))))
      && CorrectedSubmitOutcome(f, true, storage, "u2", "t1") == Refused(EmailTaken)
  {
    var stored := StoredUser("u1", "a@b.c", "secret", "Ann", "Lee", "1", "2000-01-01", "t0");
    var f := Form("A@b.c", "secret", "secret", "Ann", "Lee", "1", "2000-01-01");
    ContainsAt(f.email, "@", 1);
    ContainsAt(f.email, ".", 3);
    assert BasicCheck(f).None?;
    assert f.email[0] != stored.email[0];
    TypedEmailNormalises();
    NormalisedDuplicateAccepted(f, stored, "u2", "t1");
  }

  lemma TypedEmailNormalises()
    ensures NormalEmail("A@b.c") == "a@b.c"
  {
    TypedEmailTrimmed();
    TypedEmailLowered();
  }

  lemma TypedEmailLowered()
    ensures ToLower("A@b.c") == "a@b.c"
  {
    var typed := "A@b.c";
    var r := ToLower(typed);
    assert r[0] == LowerChar(typed[0]) == 'a';
    assert r[1] == LowerChar(typed[1]) == '@';
    assert r[2] == LowerChar(typed[2]) == 'b';
    assert r[3] == LowerChar(typed[3]) == '.';
    assert r[4] == LowerChar(typed[4]) == 'c';
    SameFive(r, "a@b.c");
  }

  /** Two five-character texts that agree position by position are equal. */
  lemma SameFive(x: string, y: string)
    requires |x| == 5 && |y| == 5
    requires x[0] == y[0] && x[1] == y[1] && x[2] == y[2] && x[3] == y[3] && x[4] == y[4]
    ensures x == y
  {
    assert forall i :: 0 <= i < 5 ==> x[i] == y[i];
  }

  lemma TypedEmailTrimmed()
    ensures Trim("A@b.c") == "A@b.c"
  {
    var typed := "A@b.c";
    assert !IsWhitespace(typed[0]) && !IsWhitespace(typed[4]);
    assert LeadingSpace(typed) == 0 && TrailingSpace(typed) == 0;
  }

  /**
   * The corrected check searches for the email as it will be stored: a
   * sign-up it accepts never gives two accounts the same email.
   */
  lemma NormalisedSignUpKeepsEmailsUnique(f: Form, storage: Storage, id: string, now: string)
    requires UniqueEmails(GetStoredUsers(storage))
    requires CorrectedSubmitOutcome(f, true, storage, id, now).Created?
    ensures UniqueEmails(GetStoredUsers(SaveUser(storage, NewAccount(f, id, now))))
  {
    var users := GetStoredUsers(storage);
    var after := GetStoredUsers(SaveUser(storage, NewAccount(f, id, now)));
    forall i, j | 0 <= i < j < |after|
      ensures after[i].email != after[j].email
    {
      if j == |users| {
        assert after[i] == users[i];
      }
    }
  }
}
