/** The signup form (src/components/auth/signup-form.tsx): four text inputs and
    a terms checkbox, checked by an ordered chain of guards before the user is
    sent on to onboarding. The simulated network call is taken as
    instantaneous and successful. */
module Signup {
  import opened Ui

  const FillAllFields := "Please fill in all fields"
  const PasswordsMismatch := "Passwords do not match"
  const MustAgreeTerms := "You must agree to the terms and conditions"
  const AccountCreated := "Account created successfully"
  const OnboardingPath := "/onboarding"

  /** The form's inputs. */
  datatype Inputs = Inputs(
    name: string,
    email: string,
    password: string,
    confirmPassword: string,
    agreeTerms: bool)

  predicate AllFilled(i: Inputs)
  {
    i.name != "" && i.email != "" && i.password != "" && i.confirmPassword != ""
  }

  /** The guard chain of `handleSubmit` followed by the (successful) account
      creation: the first guard that fails decides the error. */
  function SubmitOutcome(i: Inputs): (r: Outcome)
    ensures !AllFilled(i) ==> r == Error(FillAllFields)
    ensures r == Error(PasswordsMismatch) <==> AllFilled(i) && i.password != i.confirmPassword
    ensures r == Error(MustAgreeTerms) <==>
      AllFilled(i) && i.password == i.confirmPassword && !i.agreeTerms
    ensures r.Leaves() <==> AllFilled(i) && i.password == i.confirmPassword && i.agreeTerms
    ensures r.Leaves() ==> r == SuccessAndNavigate(AccountCreated, OnboardingPath)
    ensures !r.Leaves() ==> r.Error?
  {
    if i.name == "" || i.email == "" || i.password == "" || i.confirmPassword == "" then
      Error(FillAllFields)
    else if i.password != i.confirmPassword then
      Error(PasswordsMismatch)
    else if !i.agreeTerms then
      Error(MustAgreeTerms)
    else
      SuccessAndNavigate(AccountCreated, OnboardingPath)
  }

  /** The inline "Passwords do not match" hint under the confirmation input
      (and the red border on that input). */
  predicate MismatchHint(password: string, confirmPassword: string)
    // hidden while the confirmation is empty or equal to the password ...
    ensures confirmPassword == "" || confirmPassword == password ==> !MismatchHint(password, confirmPassword)
    // ... and shown as soon as a typed confirmation differs from it
    ensures confirmPassword != "" && confirmPassword != password ==> MismatchHint(password, confirmPassword)
  {
    confirmPassword != "" && password != confirmPassword
  }

  class SignupForm {
    var name: string
    var email: string
    var password: string
    var confirmPassword: string
    var agreeTerms: bool
    var isLoading: bool

    function Current(): Inputs
      reads this
    {
      Inputs(name, email, password, confirmPassword, agreeTerms)
    }

    constructor ()
      ensures Current() == Inputs("", "", "", "", false)
      ensures !isLoading
    {
      name, email, password, confirmPassword := "", "", "", "";
      agreeTerms, isLoading := false, false;
    }

    /** `handleSubmit`: a rejected guard leaves the form exactly as it was;
        a completed submission leaves it idle. */
    method HandleSubmit() returns (r: Outcome)
      modifies this
      ensures r == SubmitOutcome(old(Current()))
      ensures Current() == old(Current())
      ensures r.Error? ==> isLoading == old(isLoading)
      ensures !r.Error? ==> !isLoading
    {
      if name == "" || email == "" || password == "" || confirmPassword == "" {
        return Error(FillAllFields);
      }
      if password != confirmPassword {
        return Error(PasswordsMismatch);
      }
      if !agreeTerms {
        return Error(MustAgreeTerms);
      }

      isLoading := true;
      r := SuccessAndNavigate(AccountCreated, OnboardingPath);
      isLoading := false;
    }
  }

  // ---------------------------------------------------------------------------
  // Properties
  // ---------------------------------------------------------------------------

  /** Any empty field gives the fill-in error, whatever else is entered. */
  lemma EmptyFieldWins(i: Inputs, j: Inputs)
    requires !AllFilled(i)
    requires j.name == i.name && j.email == i.email
    requires j.password == i.password && j.confirmPassword == i.confirmPassword
    ensures SubmitOutcome(i) == SubmitOutcome(j) == Error(FillAllFields)
  {
  }

  /** Of the three errors, exactly one is given to a rejected submission, and
      they come in the order fill, match, terms. */
  lemma GuardOrder(i: Inputs)
    ensures SubmitOutcome(i) == Error(FillAllFields) <==> !AllFilled(i)
    ensures SubmitOutcome(i) == Error(PasswordsMismatch) ==> AllFilled(i)
    ensures SubmitOutcome(i) == Error(MustAgreeTerms) ==> AllFilled(i) && i.password == i.confirmPassword
    ensures SubmitOutcome(i) in {Error(FillAllFields), Error(PasswordsMismatch), Error(MustAgreeTerms),
                                 SuccessAndNavigate(AccountCreated, OnboardingPath)}
  {
  }

  /** With every field filled in, the inline hint is shown exactly when a
      submission would be refused for mismatching passwords; with an empty
      confirmation the hint is hidden and the submission is refused as
      incomplete. */
  lemma {:induction false} HintAgreesWithSubmit(i: Inputs)
    ensures AllFilled(i) ==>
      (MismatchHint(i.password, i.confirmPassword) <==> SubmitOutcome(i) == Error(PasswordsMismatch))
    ensures i.confirmPassword == "" ==>
      !MismatchHint(i.password, i.confirmPassword) && SubmitOutcome(i) == Error(FillAllFields)
    ensures MismatchHint(i.password, i.confirmPassword) ==> !SubmitOutcome(i).Leaves()
  {
  }
}
