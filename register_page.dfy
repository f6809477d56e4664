/** `registerSchema` of src/pages/RegisterPage.tsx, as zod (version 3) evaluates it: every
    field is checked and every failed check of a string chain is reported, in declaration
    order; an unusable role aborts the object, so the password-match refinement runs only
    when the role is valid. Lengths are JavaScript lengths (UTF-16 code units) and the
    regular expressions match code units. */
module RegisterPage {
  import opened Common

  datatype Field = Name | Email | Password | ConfirmPassword | RoleField

  /** A zod issue: the field it is reported on and its message. */
  datatype Issue = Issue(field: Field, message: string)

  datatype RegisterForm = RegisterForm(name: string, email: string, password: string,
                                       confirmPassword: string, role: Option<string>)

  /** What `onSubmit` receives and passes to `registerUser` (line 67). */
  datatype RegisterData = RegisterData(name: string, email: string, password: string, role: string)

  datatype Parsed = Accepted(data: RegisterData) | Rejected(issues: seq<Issue>)

  const Mismatch := "Passwords don't match"

  /** `s.length`: a character outside the Basic Multilingual Plane takes two code units. */
  function JsLength(s: string): (n: nat)
    ensures n >= |s|
    ensures (forall i :: 0 <= i < |s| ==> s[i] as int <= 0xFFFF) ==> n == |s|
  {
    if s == [] then 0 else JsLength(s[..|s| - 1]) + (if s[|s| - 1] as int > 0xFFFF then 2 else 1)
  }

  predicate IsAsciiUpper(c: char) { 'A' <= c <= 'Z' }
  predicate IsAsciiLower(c: char) { 'a' <= c <= 'z' }
  predicate IsAsciiDigit(c: char) { '0' <= c <= '9' }

  /** The code units JavaScript's `\s` matches. */
  predicate IsJsSpace(c: char)
  {
    c == ' ' || c == '\t' || c == '\n' || c == '\U{b}' || c == '\U{c}' || c == '\r' ||
    c == '\U{a0}' || c == '\U{1680}' || ('\U{2000}' <= c <= '\U{200a}') ||
    c == '\U{2028}' || c == '\U{2029}' || c == '\U{202f}' || c == '\U{205f}' ||
    c == '\U{3000}' || c == '\U{feff}'
  }

  predicate IsNameChar(c: char)
  {
    IsAsciiUpper(c) || IsAsciiLower(c) || IsJsSpace(c)
  }

  /** `/^[a-zA-Z\s]+$/`. */
  predicate NameMatches(s: string)
  {
    |s| > 0 && forall i :: 0 <= i < |s| ==> IsNameChar(s[i])
  }

  /** The name chain (lines 16-21). */
  function NameIssues(name: string): seq<string>
  {
    (if JsLength(name) < 1 then ["Name is required"] else []) +
    (if JsLength(name) < 2 then ["Name must be at least 2 characters"] else []) +
    (if JsLength(name) > 50 then ["Name must not exceed 50 characters"] else []) +
    (if !NameMatches(name) then ["Name can only contain letters and spaces"] else [])
  }

  /** A name passes iff it has 2 to 50 characters, each an ASCII letter or whitespace. */
  lemma NameAccepted(name: string)
    ensures NameIssues(name) == [] <==>
              2 <= |name| <= 50 && forall i :: 0 <= i < |name| ==> IsNameChar(name[i])
  {
    var n := JsLength(name);
    assert |NameIssues(name)| == (if n < 1 then 1 else 0) + (if n < 2 then 1 else 0) +
                                 (if n > 50 then 1 else 0) + (if !NameMatches(name) then 1 else 0);
    if NameMatches(name) {
      assert forall i :: 0 <= i < |name| ==> name[i] as int <= 0xFFFF;
    }
  }

  /** The email chain (lines 22-26) up to its transform; the format test is zod's own. */
  function EmailIssues(email: string, isEmail: string -> bool): seq<string>
  {
    (if JsLength(email) < 1 then ["Email is required"] else []) +
    (if !isEmail(email) then ["Please enter a valid email address"] else [])
  }

  function LowerChar(c: char): char
  {
    if IsAsciiUpper(c) then (c as int + 32) as char else c
  }

  /** `.toLowerCase()`, on the ASCII letters. */
  function AsciiLower(s: string): string
  {
    if s == [] then [] else AsciiLower(s[..|s| - 1]) + [LowerChar(s[|s| - 1])]
  }

  /** Lowercasing keeps the length, leaves no ASCII capital and changes nothing else; so
      it is idempotent. */
  lemma {:induction false} AsciiLowerSpec(s: string)
    ensures |AsciiLower(s)| == |s|
    ensures forall i :: 0 <= i < |s| ==> !IsAsciiUpper(AsciiLower(s)[i])
    ensures forall i :: 0 <= i < |s| && !IsAsciiUpper(s[i]) ==> AsciiLower(s)[i] == s[i]
    ensures AsciiLower(AsciiLower(s)) == AsciiLower(s)
  {
    if s != [] {
      var n := |s| - 1;
      AsciiLowerSpec(s[..n]);
      var t := AsciiLower(s);
      assert t == AsciiLower(s[..n]) + [LowerChar(s[n])];
      assert t[..n] == AsciiLower(s[..n]);
      assert AsciiLower(t) == AsciiLower(t[..n]) + [LowerChar(t[n])];
    }
  }

  predicate HasUpper(p: string) { exists i :: 0 <= i < |p| && IsAsciiUpper(p[i]) }
  predicate HasLower(p: string) { exists i :: 0 <= i < |p| && IsAsciiLower(p[i]) }
  predicate HasDigit(p: string) { exists i :: 0 <= i < |p| && IsAsciiDigit(p[i]) }
  /** `/[^A-Za-z0-9]/`: any code unit that is not an ASCII letter or digit. */
  predicate HasSpecial(p: string)
  {
    exists i :: 0 <= i < |p| && !(IsAsciiUpper(p[i]) || IsAsciiLower(p[i]) || IsAsciiDigit(p[i]))
  }

  /** The strength rule both password forms state. */
  predicate StrongPassword(p: string)
  {
    JsLength(p) >= 8 && HasUpper(p) && HasLower(p) && HasDigit(p) && HasSpecial(p)
  }

  /** The password chain (lines 27-34; the same chain at ResetPasswordPage.tsx lines 16-23). */
  function PasswordIssues(p: string): (r: seq<string>)
    ensures r == [] <==> StrongPassword(p)
    ensures JsLength(p) < 8 ==> |r| > 0 && r[0] == (if p == [] then "Password is required"
                                                        else "Password must be at least 8 characters")
  {
    (if JsLength(p) < 1 then ["Password is required"] else []) +
    (if JsLength(p) < 8 then ["Password must be at least 8 characters"] else []) +
    (if !HasUpper(p) then ["Password must contain at least one uppercase letter"] else []) +
    (if !HasLower(p) then ["Password must contain at least one lowercase letter"] else []) +
    (if !HasDigit(p) then ["Password must contain at least one number"] else []) +
    (if !HasSpecial(p) then ["Password must contain at least one special character"] else [])
  }

  function ConfirmIssues(c: string): seq<string>
  {
    if JsLength(c) < 1 then ["Please confirm your password"] else []
  }

  /** `z.enum(['buyer', 'seller'], ...)`: a missing role gets the custom message, any other
      value zod's default one; either aborts the object. */
  function RoleIssues(role: Option<string>): (r: seq<string>)
    ensures r == [] <==> role == Some("buyer") || role == Some("seller")
  {
    if role.None? then ["Please select a role"]
    else if role.value == "buyer" || role.value == "seller" then []
    else ["Invalid enum value. Expected 'buyer' | 'seller', received '" + role.value + "'"]
  }

  /** The messages of one field, as issues on that field. */
  function Tag(f: Field, messages: seq<string>): (r: seq<Issue>)
    ensures |r| == |messages|
    ensures forall i :: 0 <= i < |r| ==> r[i] == Issue(f, messages[i])
  {
    seq(|messages|, i requires 0 <= i < |messages| => Issue(f, messages[i]))
  }

  /** All issues of the form in zod's order, the refinement last. */
  function Issues(form: RegisterForm, isEmail: string -> bool): seq<Issue>
  {
    Tag(Name, NameIssues(form.name)) +
    Tag(Email, EmailIssues(form.email, isEmail)) +
    Tag(Password, PasswordIssues(form.password)) +
    Tag(ConfirmPassword, ConfirmIssues(form.confirmPassword)) +
    Tag(RoleField, RoleIssues(form.role)) +
    (if RoleIssues(form.role) == [] && form.password != form.confirmPassword
     then [Issue(ConfirmPassword, Mismatch)] else [])
  }

  /** `registerSchema.safeParse(form)`: the data `onSubmit` gets, with the email lowercased,
      or the issues react-hook-form shows. */
  function ParseRegister(form: RegisterForm, isEmail: string -> bool): (r: Parsed)
    ensures r.Accepted? <==> Issues(form, isEmail) == []
    ensures r.Rejected? ==> r.issues == Issues(form, isEmail) && r.issues != []
    ensures r.Accepted? ==>
              r.data.name == form.name && r.data.password == form.password &&
              form.role == Some(r.data.role) && r.data.email == AsciiLower(form.email)
  {
    var issues := Issues(form, isEmail);
    if issues == [] then Accepted(RegisterData(form.name, AsciiLower(form.email), form.password, form.role.value))
    else Rejected(issues)
  }

  /** The form is accepted exactly when every rule holds. */
  lemma RegisterAccepted(form: RegisterForm, isEmail: string -> bool)
    ensures ParseRegister(form, isEmail).Accepted? <==>
              2 <= |form.name| <= 50 && (forall i :: 0 <= i < |form.name| ==> IsNameChar(form.name[i])) &&
              form.email != "" && isEmail(form.email) &&
              StrongPassword(form.password) && form.confirmPassword == form.password &&
              (form.role == Some("buyer") || form.role == Some("seller"))
  {
    NameAccepted(form.name);
    if form.email != "" {
      assert JsLength(form.email) >= |form.email| > 0;
    }
    if form.confirmPassword == form.password && StrongPassword(form.password) {
      assert JsLength(form.confirmPassword) >= 8;
    }
  }

  /** A form correct but for a differing, non-empty confirmation gets exactly one issue,
      the mismatch, on `confirmPassword`; with an invalid role the mismatch is not reported. */
  lemma MismatchOnConfirm(form: RegisterForm, isEmail: string -> bool)
    requires NameIssues(form.name) == [] && EmailIssues(form.email, isEmail) == []
    requires StrongPassword(form.password) && form.confirmPassword != "" &&
             form.confirmPassword != form.password
    ensures RoleIssues(form.role) == [] ==> Issues(form, isEmail) == [Issue(ConfirmPassword, Mismatch)]
    ensures RoleIssues(form.role) != [] ==> Issue(ConfirmPassword, Mismatch) !in Issues(form, isEmail)
  {
    assert JsLength(form.confirmPassword) >= |form.confirmPassword| > 0;
    var pre := Tag(Name, NameIssues(form.name)) + Tag(Email, EmailIssues(form.email, isEmail)) +
               Tag(Password, PasswordIssues(form.password)) + Tag(ConfirmPassword, ConfirmIssues(form.confirmPassword));
    assert pre == [];
    if RoleIssues(form.role) != [] {
      assert Issues(form, isEmail) == Tag(RoleField, RoleIssues(form.role));
    }
  }
}
