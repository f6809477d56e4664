/** src/pages/ResetPasswordPage.tsx: `resetPasswordSchema` and the page state that
    `onSubmit` drives. The schema's password chain is the registration chain, so it is
    taken from RegisterPage rather than written again. */
module ResetPasswordPage {
  import opened Common
  import opened RegisterPage

  datatype ResetForm = ResetForm(password: string, confirmPassword: string)

  /** How the context's `resetPassword` call ended: resolved, or thrown with `err.message`. */
  datatype ResetOutcome = ResetDone | ResetFailed(message: string)

  /** What the page shows (lines 68-91 and 93-163). */
  datatype Screen = SuccessScreen | FormScreen(error: Option<string>, loading: bool)

  const MissingToken := "Invalid or expired reset token"
  const ResetDefault := "Failed to reset password. The link may have expired."

  /** resetPasswordSchema (lines 14-29): nothing aborts this object, so the match
      refinement always runs. */
  function ResetIssues(form: ResetForm): seq<Issue>
  {
    Tag(Password, PasswordIssues(form.password)) +
    Tag(ConfirmPassword, ConfirmIssues(form.confirmPassword)) +
    (if form.password != form.confirmPassword then [Issue(ConfirmPassword, Mismatch)] else [])
  }

  /** The form passes iff the password meets the registration strength rule and the
      confirmation repeats it. */
  lemma ResetAccepted(form: ResetForm)
    ensures ResetIssues(form) == [] <==> StrongPassword(form.password) && form.confirmPassword == form.password
  {
    if form.confirmPassword == form.password && StrongPassword(form.password) {
      assert JsLength(form.confirmPassword) >= 8;
    }
  }

  /** A differing confirmation is always reported, on `confirmPassword`, as the last issue. */
  lemma MismatchReported(form: ResetForm)
    requires form.password != form.confirmPassword
    ensures ResetIssues(form) != [] && ResetIssues(form)[|ResetIssues(form)| - 1] == Issue(ConfirmPassword, Mismatch)
  {
  }

  /** Every issue concerns one of the two fields. */
  lemma IssuesOnPasswordFields(form: ResetForm)
    ensures forall i :: 0 <= i < |ResetIssues(form)| ==>
              ResetIssues(form)[i].field == Password || ResetIssues(form)[i].field == ConfirmPassword
  {
    var a := Tag(Password, PasswordIssues(form.password));
    var b := Tag(ConfirmPassword, ConfirmIssues(form.confirmPassword));
    var c := if form.password != form.confirmPassword then [Issue(ConfirmPassword, Mismatch)] else [];
    assert ResetIssues(form) == a + b + c;
    forall i | 0 <= i < |a + b + c|
      ensures (a + b + c)[i].field == Password || (a + b + c)[i].field == ConfirmPassword
    {
      if i < |a| {
        assert (a + b + c)[i] == a[i];
      } else if i < |a| + |b| {
        assert (a + b + c)[i] == b[i - |a|];
      } else {
        assert (a + b + c)[i] == c[i - |a| - |b|];
      }
    }
  }

  class ResetPasswordView {
    var isLoading: bool
    var isSuccess: bool
    var error: Option<string>
    var calls: seq<(string, string)>

    constructor ()
      ensures !isLoading && !isSuccess && error == None && calls == []
    {
      isLoading := false;
      isSuccess := false;
      error := None;
      calls := [];
    }

    function View(): (s: Screen)
      reads this
      ensures s == SuccessScreen <==> isSuccess
      ensures s.FormScreen? ==> s.error == error && s.loading == isLoading
    {
      if isSuccess then SuccessScreen else FormScreen(error, isLoading)
    }

    /** `handleSubmit(onSubmit)` (lines 50-66) with the URL's `token`. A form with issues
        never reaches `onSubmit`. `navigated` is the context's `navigate('/login')` on
        success (AuthContext.tsx line 197), which runs before `setIsSuccess(true)`. */
    method Submit(token: Option<string>, form: ResetForm, outcome: ResetOutcome)
      returns (navigated: Option<string>)
      modifies this
      ensures ResetIssues(form) != [] ==>
                navigated == None && calls == old(calls) && isLoading == old(isLoading) &&
                isSuccess == old(isSuccess) && error == old(error)
      ensures ResetIssues(form) == [] && !Truthy(token) ==>
                navigated == None && calls == old(calls) && error == Some(MissingToken) &&
                isSuccess == old(isSuccess) && isLoading == old(isLoading)
      ensures ResetIssues(form) == [] && Truthy(token) ==>
                calls == old(calls) + [(token.value, form.password)] && !isLoading
      ensures ResetIssues(form) == [] && Truthy(token) && outcome == ResetDone ==>
                isSuccess && error == old(error) && navigated == Some("/login")
      ensures ResetIssues(form) == [] && Truthy(token) && outcome.ResetFailed? ==>
                isSuccess == old(isSuccess) && navigated == None &&
                error == Some(if outcome.message != "" then outcome.message else ResetDefault)
    {
      navigated := None;
      if ResetIssues(form) != [] {
        return;
      }
      if !Truthy(token) {
        error := Some(MissingToken);
        return;
      }
      isLoading := true;
      calls := calls + [(token.value, form.password)];
      match outcome {
        case ResetDone =>
          navigated := Some("/login");
          isSuccess := true;
        case ResetFailed(message) =>
          error := Some(if message != "" then message else ResetDefault);
      }
      isLoading := false;
    }
  }
}
