/**
  The login / registration form (src/pages/Auth.tsx): field-by-field
  validation into an error map, the input and mode-switch handlers, the
  submit guard, and the password-visibility input type.
*/
module Auth {
  import opened Wrappers

  // ----- JavaScript string facts the form relies on -----

  /** The characters of the regular-expression class `\s` of JavaScript (line terminators and white space). */
  const JsSpaceChars: set<char> := {
    '\t', '\n', '\U{B}', '\U{C}', '\r', ' ', '\U{A0}', '\U{1680}',
    '\U{2000}', '\U{2001}', '\U{2002}', '\U{2003}', '\U{2004}', '\U{2005}',
    '\U{2006}', '\U{2007}', '\U{2008}', '\U{2009}', '\U{200A}',
    '\U{2028}', '\U{2029}', '\U{202F}', '\U{205F}', '\U{3000}', '\U{FEFF}'}

  predicate IsJsSpace(c: char) {
    c in JsSpaceChars
  }

  /**
    The `.length` of a JavaScript string: UTF-16 code units, so a character
    outside the Basic Multilingual Plane counts twice.
  */
  function Utf16Length(s: string): (n: nat)
    ensures |s| <= n <= 2 * |s|
    ensures n == 0 <==> s == []
  {
    if s == [] then 0
    else (if s[0] as int >= 0x1_0000 then 2 else 1) + Utf16Length(s[1..])
  }

  // ----- the email pattern /^[^\s@]+@[^\s@]+\.[^\s@]+$/ -----

  /** `[^\s@]`: a character allowed in each of the pattern's three parts. */
  predicate Plain(c: char) {
    !IsJsSpace(c) && c != '@'
  }

  predicate AllPlain(s: string) {
    forall i :: 0 <= i < |s| ==> Plain(s[i])
  }

  /**
    The pattern as a language: the string splits, at an '@' (index `at`) and
    a later '.' (index `dot`), into three non-empty runs of plain characters.
  */
  ghost predicate MatchesEmailPattern(s: string) {
    exists at: nat, dot: nat ::
      0 < at && at + 1 < dot && dot + 1 < |s| && s[at] == '@' && s[dot] == '.'
      && AllPlain(s[..at]) && AllPlain(s[at + 1..dot]) && AllPlain(s[dot + 1..])
  }

  /** The index of the first `c` in `s`, or |s| if there is none. */
  function IndexOf(s: string, c: char): (i: nat)
    ensures i <= |s|
    ensures i < |s| ==> s[i] == c
    ensures forall j :: 0 <= j < i ==> s[j] != c
  {
    if s == [] then 0
    else if s[0] == c then 0
    else 1 + IndexOf(s[1..], c)
  }

  /** Whether a '.' occurs strictly inside `s` (neither first nor last). */
  predicate HasInnerDot(s: string) {
    exists d :: 0 < d < |s| - 1 && s[d] == '.'
  }

  /**
    The check `.test` performs: one '@' after a non-empty plain prefix, and a
    plain remainder with an inner '.'.
  */
  predicate EmailValid(s: string) {
    var at := IndexOf(s, '@');
    0 < at < |s| && AllPlain(s[..at]) && AllPlain(s[at + 1..]) && HasInnerDot(s[at + 1..])
  }

  /** An accepted address has no white space and exactly one '@'. */
  lemma EmailValidShape(s: string)
    requires EmailValid(s)
    ensures forall i :: 0 <= i < |s| ==> !IsJsSpace(s[i])
    ensures forall i, j :: 0 <= i < |s| && 0 <= j < |s| && s[i] == '@' && s[j] == '@' ==> i == j
  {
    var at := IndexOf(s, '@');
    forall i | 0 <= i < |s| && i != at ensures Plain(s[i]) {
      if i < at { assert s[i] == s[..at][i]; } else { assert s[i] == s[at + 1..][i - at - 1]; }
    }
  }

  lemma AllPlainSlice(s: string, i: nat, j: nat)
    requires AllPlain(s) && i <= j <= |s|
    ensures AllPlain(s[i..j])
  {
    forall k | 0 <= k < j - i ensures Plain(s[i..j][k]) {
      assert s[i..j][k] == s[i + k];
    }
  }

  lemma {:induction false} EmailValidImpliesPattern(s: string)
    requires EmailValid(s)
    ensures MatchesEmailPattern(s)
  {
    var at := IndexOf(s, '@');
    var rest := s[at + 1..];
    var d :| 0 < d < |rest| - 1 && rest[d] == '.';
    var dot := at + 1 + d;
    AllPlainSlice(rest, 0, d);
    AllPlainSlice(rest, d + 1, |rest|);
    assert s[at + 1..dot] == rest[..d];
    assert s[dot + 1..] == rest[d + 1..];
    assert s[dot] == '.';
  }

  lemma AllPlainConcat(a: string, b: string)
    requires AllPlain(a) && AllPlain(b)
    ensures AllPlain(a + b)
  {
    forall k | 0 <= k < |a + b| ensures Plain((a + b)[k]) {
      if k < |a| { assert (a + b)[k] == a[k]; } else { assert (a + b)[k] == b[k - |a|]; }
    }
  }

  /** An '@' preceded only by plain characters is the first '@'. */
  lemma FirstAt(s: string, at: nat)
    requires at < |s| && s[at] == '@' && AllPlain(s[..at])
    ensures IndexOf(s, '@') == at
  {
    forall j | 0 <= j < at ensures s[j] != '@' {
      assert s[j] == s[..at][j];
    }
  }

  /** Joining two plain runs around a '.' gives a plain run with an inner '.'. */
  lemma DottedRun(host: string, tld: string)
    requires host != [] && tld != [] && AllPlain(host) && AllPlain(tld)
    ensures AllPlain(host + ['.'] + tld) && HasInnerDot(host + ['.'] + tld)
  {
    assert AllPlain(['.']) by { assert Plain('.'); }
    AllPlainConcat(host, ['.']);
    AllPlainConcat(host + ['.'], tld);
    assert (host + ['.'] + tld)[|host|] == '.';
  }

  /** Given the split points of a match, the check accepts the string. */
  lemma {:induction false} SplitImpliesEmailValid(s: string, at: nat, dot: nat)
    requires 0 < at && at + 1 < dot && dot + 1 < |s| && s[at] == '@' && s[dot] == '.'
    requires AllPlain(s[..at]) && AllPlain(s[at + 1..dot]) && AllPlain(s[dot + 1..])
    ensures EmailValid(s)
  {
    FirstAt(s, at);
    var rest := s[at + 1..];
    assert rest == s[at + 1..dot] + ['.'] + s[dot + 1..];
    DottedRun(s[at + 1..dot], s[dot + 1..]);
  }

  lemma PatternImpliesEmailValid(s: string)
    requires MatchesEmailPattern(s)
    ensures EmailValid(s)
  {
    var at: nat, dot: nat :| 0 < at && at + 1 < dot && dot + 1 < |s| && s[at] == '@' && s[dot] == '.'
      && AllPlain(s[..at]) && AllPlain(s[at + 1..dot]) && AllPlain(s[dot + 1..]);
    SplitImpliesEmailValid(s, at, dot);
  }

  /** The executable check accepts exactly the strings of the pattern's language. */
  lemma EmailValidMatchesPattern(s: string)
    ensures EmailValid(s) <==> MatchesEmailPattern(s)
  {
    if EmailValid(s) {
      EmailValidImpliesPattern(s);
    }
    if MatchesEmailPattern(s) {
      PatternImpliesEmailValid(s);
    }
  }

  // ----- the form -----

  datatype Field = Name | Email | Password | ConfirmPassword

  const AllFields: set<Field> := {Name, Email, Password, ConfirmPassword}

  datatype FormData = FormData(name: string, email: string, password: string, confirmPassword: string)
  {
    function Get(f: Field): string {
      match f
      case Name => name
      case Email => email
      case Password => password
      case ConfirmPassword => confirmPassword
    }

    /** `{ ...prev, [field]: value }`: field `f` becomes `v`, every other field is kept. */
    function Set(f: Field, v: string): (r: FormData)
      ensures r.Get(f) == v
      ensures forall g :: g != f ==> r.Get(g) == Get(g)
    {
      match f
      case Name => this.(name := v)
      case Email => this.(email := v)
      case Password => this.(password := v)
      case ConfirmPassword => this.(confirmPassword := v)
    }
  }

  const EmptyForm: FormData := FormData("", "", "", "")

  const EmailRequired: string := "请输入邮箱地址"
  const EmailInvalid: string := "请输入有效的邮箱地址"
  const PasswordRequired: string := "请输入密码"
  const PasswordTooShort: string := "密码至少需要6个字符"
  const NameRequired: string := "请输入探险者昵称"
  const NameTooShort: string := "昵称至少需要2个字符"
  const ConfirmRequired: string := "请确认密码"
  const ConfirmMismatch: string := "两次输入的密码不一致"

  /** The message, if any, the validation records for field `f`. */
  function FieldError(form: FormData, isLogin: bool, f: Field): Option<string> {
    match f
    case Email =>
      if form.email == "" then Some(EmailRequired)
      else if !EmailValid(form.email) then Some(EmailInvalid)
      else None
    case Password =>
      if form.password == "" then Some(PasswordRequired)
      else if Utf16Length(form.password) < 6 then Some(PasswordTooShort)
      else None
    case Name =>
      if isLogin then None
      else if form.name == "" then Some(NameRequired)
      else if Utf16Length(form.name) < 2 then Some(NameTooShort)
      else None
    case ConfirmPassword =>
      if isLogin then None
      else if form.confirmPassword == "" then Some(ConfirmRequired)
      else if form.password != form.confirmPassword then Some(ConfirmMismatch)
      else None
  }

  /** The error map validation produces: one entry per failing field, nothing else. */
  function FormErrors(form: FormData, isLogin: bool): (m: map<Field, string>)
    ensures forall f :: f in m <==> FieldError(form, isLogin, f).Some?
    ensures forall f :: f in m ==> m[f] == FieldError(form, isLogin, f).value
  {
    map f | f in AllFields && FieldError(form, isLogin, f).Some? :: FieldError(form, isLogin, f).value
  }

  /** Map `m` holds exactly the validation's verdict on field `f`. */
  predicate AgreesOn(m: map<Field, string>, form: FormData, isLogin: bool, f: Field) {
    && (f in m <==> FieldError(form, isLogin, f).Some?)
    && (f in m ==> m[f] == FieldError(form, isLogin, f).value)
  }

  /** A map that agrees with the validation on all four fields is the error map. */
  lemma AgreementDeterminesErrors(m: map<Field, string>, form: FormData, isLogin: bool)
    requires AgreesOn(m, form, isLogin, Name) && AgreesOn(m, form, isLogin, Email)
    requires AgreesOn(m, form, isLogin, Password) && AgreesOn(m, form, isLogin, ConfirmPassword)
    ensures m == FormErrors(form, isLogin)
  {
    var e := FormErrors(form, isLogin);
    forall f ensures f in m <==> f in e {
      assert f == Name || f == Email || f == Password || f == ConfirmPassword;
    }
    forall f | f in m ensures m[f] == e[f] {
      assert f == Name || f == Email || f == Password || f == ConfirmPassword;
    }
  }

  /**
    The form is accepted exactly when the email matches the pattern, the
    password has at least 6 UTF-16 units, and, when registering, the name
    has at least 2 and the confirmation equals the password.
  */
  lemma {:induction false} AcceptedIff(form: FormData, isLogin: bool)
    ensures FormErrors(form, isLogin) == map[] <==>
      && MatchesEmailPattern(form.email)
      && Utf16Length(form.password) >= 6
      && (!isLogin ==> Utf16Length(form.name) >= 2 && form.confirmPassword == form.password)
  {
    EmailValidMatchesPattern(form.email);
    var m := FormErrors(form, isLogin);
    if m == map[] {
      assert Email !in m && Password !in m && Name !in m && ConfirmPassword !in m;
    } else {
      var f :| f in m;
    }
  }

  /** A password that is empty or too short yields exactly one password error, the matching one. */
  lemma PasswordErrors(form: FormData, isLogin: bool)
    ensures Password in FormErrors(form, isLogin) <==> Utf16Length(form.password) < 6
    ensures form.password == "" ==> FormErrors(form, isLogin)[Password] == PasswordRequired
    ensures form.password != "" && Utf16Length(form.password) < 6 ==>
      FormErrors(form, isLogin)[Password] == PasswordTooShort
  {
  }

  /** When logging in, the name and confirmation fields never produce errors. */
  lemma LoginIgnoresRegistrationFields(form: FormData)
    ensures Name !in FormErrors(form, true) && ConfirmPassword !in FormErrors(form, true)
  {
  }

  // ----- the input's rendered type -----

  /** The `type` each field is rendered with. */
  function DeclaredType(f: Field): string {
    match f
    case Name => "text"
    case Email => "email"
    case Password => "password"
    case ConfirmPassword => "password"
  }

  /**
    `actualType` in `renderInput`: a password-type input is shown as text
    while its own visibility toggle is on (the password field's for
    "password", the confirmation's for any other field).
  */
  function ActualType(f: Field, inputType: string, showPassword: bool, showConfirmPassword: bool): (r: string)
    ensures r == inputType || (inputType == "password" && r == "text")
  {
    var toggle := if f == Password then showPassword else showConfirmPassword;
    if inputType == "password" && toggle then "text" else inputType
  }

  /** Only a password field whose own toggle is on changes its type, and then to "text". */
  lemma RenderedTypes(f: Field, showPassword: bool, showConfirmPassword: bool)
    ensures var r := ActualType(f, DeclaredType(f), showPassword, showConfirmPassword);
      && (r != DeclaredType(f) <==> (f == Password && showPassword) || (f == ConfirmPassword && showConfirmPassword))
      && (r == "password" <==> (f == Password && !showPassword) || (f == ConfirmPassword && !showConfirmPassword))
  {
  }

  // ----- the page state -----

  class AuthPage {
    var isLogin: bool
    var showPassword: bool
    var showConfirmPassword: bool
    var isLoading: bool
    var errors: map<Field, string>
    var form: FormData

    constructor ()
      ensures isLogin && !showPassword && !showConfirmPassword && !isLoading
      ensures errors == map[] && form == EmptyForm
    {
      isLogin := true;
      showPassword := false;
      showConfirmPassword := false;
      isLoading := false;
      errors := map[];
      form := EmptyForm;
    }

    /** `handleInputChange`: set one field; blank its error only if one is showing. */
    method HandleInputChange(f: Field, v: string)
      modifies this`form, this`errors
      ensures form == old(form).Set(f, v)
      ensures f in old(errors) && old(errors)[f] != "" ==> errors == old(errors)[f := ""]
      ensures !(f in old(errors) && old(errors)[f] != "") ==> errors == old(errors)
    {
      form := form.Set(f, v);
      if f in errors && errors[f] != "" {
        errors := errors[f := ""];
      }
    }

    /** The email block of `validateForm`: the first entry of a fresh map. */
    static method ValidateEmail(fm: FormData, login: bool) returns (m: map<Field, string>)
      ensures AgreesOn(m, fm, login, Email) && m.Keys <= {Email}
    {
      m := map[];
      if fm.email == "" {
        m := m[Email := EmailRequired];
      } else if !EmailValid(fm.email) {
        m := m[Email := EmailInvalid];
      }
    }

    /** The password block of `validateForm`: adds the password entry, if any, and keeps the rest. */
    static method ValidatePassword(fm: FormData, login: bool, m: map<Field, string>) returns (r: map<Field, string>)
      requires Password !in m
      ensures AgreesOn(r, fm, login, Password)
      ensures forall f :: f != Password ==> (f in r <==> f in m) && (f in m ==> r[f] == m[f])
    {
      r := m;
      if fm.password == "" {
        r := r[Password := PasswordRequired];
      } else if Utf16Length(fm.password) < 6 {
        r := r[Password := PasswordTooShort];
      }
    }

    /** The registration block of `validateForm`: name and confirmation entries, only when registering. */
    static method ValidateRegistration(fm: FormData, login: bool, m: map<Field, string>) returns (r: map<Field, string>)
      requires Name !in m && ConfirmPassword !in m
      ensures AgreesOn(r, fm, login, Name) && AgreesOn(r, fm, login, ConfirmPassword)
      ensures forall f :: f != Name && f != ConfirmPassword ==> (f in r <==> f in m) && (f in m ==> r[f] == m[f])
    {
      r := m;
      if !login {
        if fm.name == "" {
          r := r[Name := NameRequired];
        } else if Utf16Length(fm.name) < 2 {
          r := r[Name := NameTooShort];
        }
        if fm.confirmPassword == "" {
          r := r[ConfirmPassword := ConfirmRequired];
        } else if fm.password != fm.confirmPassword {
          r := r[ConfirmPassword := ConfirmMismatch];
        }
      }
    }

    /**
      `validateForm`: build a fresh error map block by block, replace the
      shown errors with it, and report whether it is empty.
    */
    method ValidateForm() returns (valid: bool)
      modifies this`errors
      ensures errors == FormErrors(form, isLogin)
      ensures valid <==> errors == map[]
    {
      var fm, login := form, isLogin;
      var afterEmail := ValidateEmail(fm, login);
      var afterPassword := ValidatePassword(fm, login, afterEmail);
      var newErrors := ValidateRegistration(fm, login, afterPassword);
      assert AgreesOn(afterPassword, fm, login, Email);
      assert AgreesOn(newErrors, fm, login, Email) && AgreesOn(newErrors, fm, login, Password);
      AgreementDeterminesErrors(newErrors, fm, login);
      errors := newErrors;
      valid := |newErrors| == 0;
    }

    /** `handleSubmit` up to the simulated request: an invalid form never starts loading. */
    method HandleSubmit() returns (started: bool)
      modifies this`errors, this`isLoading
      ensures errors == FormErrors(form, isLogin)
      ensures started <==> errors == map[]
      ensures isLoading == (old(isLoading) || started)
    {
      var valid := ValidateForm();
      if !valid {
        return false;
      }
      isLoading := true;
      started := true;
    }

    /** The `finally` of `handleSubmit`, once the simulated request settles. */
    method SubmitSettled()
      modifies this`isLoading
      ensures !isLoading
    {
      isLoading := false;
    }

    /** `toggleMode`: switch between login and registration and start over. */
    method ToggleMode()
      modifies this`isLogin, this`errors, this`form
      ensures isLogin == !old(isLogin)
      ensures errors == map[] && form == EmptyForm
    {
      isLogin := !isLogin;
      errors := map[];
      form := EmptyForm;
    }

    /** The eye button of a password input flips that input's own visibility. */
    method ToggleVisibility(f: Field)
      modifies this`showPassword, this`showConfirmPassword
      ensures f == Password ==> showPassword == !old(showPassword) && showConfirmPassword == old(showConfirmPassword)
      ensures f != Password ==> showConfirmPassword == !old(showConfirmPassword) && showPassword == old(showPassword)
    {
      if f == Password {
        showPassword := !showPassword;
      } else {
        showConfirmPassword := !showConfirmPassword;
      }
    }
  }
}
