/** The client-side check of the registration form (`frontend/src/pages/auth/Register.tsx`):
    five checks in a fixed order, each adding at most one message, and the form valid
    exactly when none fires. */
module RegisterForm {
  import opened Text
  import opened Seqs

  datatype Form = Form(
    username: string,
    email: string,
    password: string,
    confirmPassword: string,
    userType: string,
    termsAccepted: bool)

  const InitialForm := Form("", "", "", "", "customer", false)

  /** The failing checks, each shown with its message. */
  datatype Problem =
    | UsernameRequired | EmailRequired | EmailInvalid | PasswordTooShort | PasswordsDiffer | TermsRequired

  function Message(p: Problem): string {
    match p
    case UsernameRequired => "Nome de usuário é obrigatório"
    case EmailRequired => "Email é obrigatório"
    case EmailInvalid => "Email inválido"
    case PasswordTooShort => "A senha deve ter pelo menos 6 caracteres"
    case PasswordsDiffer => "As senhas não coincidem"
    case TermsRequired => "Você deve aceitar os termos de uso"
  }

  const MinPasswordLength := 6

  /** The position of a check in the order the checks run. */
  function Rank(p: Problem): int {
    match p
    case UsernameRequired => 0
    case EmailRequired => 1
    case EmailInvalid => 2
    case PasswordTooShort => 3
    case PasswordsDiffer => 4
    case TermsRequired => 5
  }

  /** An '@' at `at` and a '.' at `dot` that together match `\S+@\S+\.\S+`: a non-space
      character right before the '@', one or more non-space characters between the two,
      and a non-space character right after the '.'. A longer match always contains such
      a pair, so these are all the matches there are. */
  predicate MatchAt(e: string, at: int, dot: int) {
    && 1 <= at && at + 2 <= dot && dot + 1 < |e|
    && e[at] == '@' && !IsSpace(e[at - 1])
    && e[dot] == '.' && !IsSpace(e[dot + 1])
    && forall j :: at < j < dot ==> !IsSpace(e[j])
  }

  /** `/\S+@\S+\.\S+/.test(email)`: the pattern matches somewhere in the string. */
  predicate EmailPatternMatches(e: string) {
    exists at, dot | 0 <= at < |e| && 0 <= dot < |e| :: MatchAt(e, at, dot)
  }

  /** The pattern test as a scan: each '@' with a non-space character before it, and the
      run of non-space characters after it, searched for a '.' followed by a non-space
      character. */
  method TestEmailPattern(e: string) returns (b: bool)
    ensures b <==> EmailPatternMatches(e)
  {
    var at := 0;
    while at < |e|
      invariant 0 <= at <= |e|
      invariant forall a, d :: 0 <= a < at && 0 <= d < |e| ==> !MatchAt(e, a, d)
    {
      if at >= 1 && e[at] == '@' && !IsSpace(e[at - 1]) {
        var k := at + 1;
        while k < |e| && !IsSpace(e[k])
          invariant at + 1 <= k <= |e|
          invariant forall j :: at < j < k ==> !IsSpace(e[j])
          invariant forall d :: 0 <= d < k ==> !MatchAt(e, at, d)
        {
          if e[k] == '.' && k >= at + 2 && k + 1 < |e| && !IsSpace(e[k + 1]) {
            assert MatchAt(e, at, k);
            return true;
          }
          k := k + 1;
        }
        forall d | 0 <= d < |e|
          ensures !MatchAt(e, at, d)
        {
          if d >= k && k < |e| {
            assert IsSpace(e[k]);
          }
        }
      }
      at := at + 1;
    }
    return false;
  }

  /** The messages shown for a list of failing checks. */
  function Messages(problems: seq<Problem>): (m: seq<string>)
    ensures |m| == |problems|
    ensures forall i :: 0 <= i < |problems| ==> m[i] == Message(problems[i])
  {
    if problems == [] then [] else [Message(problems[0])] + Messages(problems[1..])
  }

  /** The checks in the order `validateForm` runs them. */
  const CheckOrder: seq<Problem> :=
    [UsernameRequired, EmailRequired, EmailInvalid, PasswordTooShort, PasswordsDiffer, TermsRequired]

  /** Every check is listed, in rank order. */
  lemma CheckOrderIsComplete()
    ensures forall p: Problem :: p in CheckOrder
    ensures forall i, j :: 0 <= i < j < |CheckOrder| ==> Rank(CheckOrder[i]) < Rank(CheckOrder[j])
  {
    forall p: Problem
      ensures p in CheckOrder
    {
      assert CheckOrder[Rank(p)] == p;
    }
  }

  /** Whether a check fails: the username or e-mail is empty once trimmed, the e-mail is
      not blank but the pattern does not match it (matched against the untrimmed text), the
      password is shorter than 6 UTF-16 code units or differs from its confirmation, or the
      terms are not accepted. */
  predicate Fails(f: Form, p: Problem) {
    match p
    case UsernameRequired => Blank(f.username)
    case EmailRequired => Blank(f.email)
    case EmailInvalid => !Blank(f.email) && !EmailPatternMatches(f.email)
    case PasswordTooShort => Utf16Length(f.password) < MinPasswordLength
    case PasswordsDiffer => f.password != f.confirmPassword
    case TermsRequired => !f.termsAccepted
  }

  /** `validateForm`: the failing checks, each once, in check order. */
  function ValidateForm(f: Form): (errors: seq<Problem>)
    ensures |errors| <= |CheckOrder|
    ensures forall p :: p in errors <==> p in CheckOrder && Fails(f, p)
  {
    Filter(CheckOrder, (p: Problem) => Fails(f, p))
  }

  /** Each check's message appears exactly when the check fails, at most once, and the
      messages keep check order. */
  lemma ValidateFormChecks(f: Form)
    ensures forall p :: p in ValidateForm(f) <==> Fails(f, p)
    ensures var errors := ValidateForm(f);
      forall i, j :: 0 <= i < j < |errors| ==> Rank(errors[i]) < Rank(errors[j])
  {
    CheckOrderIsComplete();
    FilterKeepsOrder(CheckOrder, (p: Problem) => Fails(f, p), Rank);
  }

  /** A blank e-mail reports only that it is required: the pattern is not tried. */
  lemma BlankEmailIsOnlyRequired(f: Form)
    requires Blank(f.email)
    ensures EmailRequired in ValidateForm(f) && EmailInvalid !in ValidateForm(f)
  {
    ValidateFormChecks(f);
  }

  /** The form is submitted exactly when every check passes. */
  lemma ValidIffNoErrors(f: Form)
    ensures ValidateForm(f) == [] <==>
      && !Blank(f.username) && !Blank(f.email) && EmailPatternMatches(f.email)
      && Utf16Length(f.password) >= MinPasswordLength && f.password == f.confirmPassword && f.termsAccepted
  {
    ValidateFormChecks(f);
    if ValidateForm(f) == [] {
      assert !Fails(f, UsernameRequired) && !Fails(f, EmailRequired) && !Fails(f, EmailInvalid);
      assert !Fails(f, PasswordTooShort) && !Fails(f, PasswordsDiffer) && !Fails(f, TermsRequired);
    }
  }

  /** The untouched form fails every check but the e-mail pattern, which a blank e-mail
      skips, and the password match. */
  lemma InitialFormErrors()
    ensures ValidateForm(InitialForm) == [UsernameRequired, EmailRequired, PasswordTooShort, TermsRequired]
  {
  }

  /** The pattern is unanchored: text around an address does not spoil it, while an
      address with nothing after the '.' is invalid. */
  lemma PatternExamples()
    ensures EmailPatternMatches("contato: a@b.c!")
    ensures !EmailPatternMatches("a@b.")
  {
    assert MatchAt("contato: a@b.c!", 10, 12);
  }

  /** The length check counts UTF-16 code units, as `password.length` does: three
      characters outside the Basic Multilingual Plane are long enough, while three
      accented Latin letters are not. */
  lemma PasswordLengthCountsCodeUnits()
    ensures !Fails(InitialForm.(password := "\U{1F600}\U{1F600}\U{1F600}"), PasswordTooShort)
    ensures Fails(InitialForm.(password := "\U{00E9}\U{00E9}\U{00E9}"), PasswordTooShort)
  {
    assert Utf16Length("\U{1F600}\U{1F600}\U{1F600}") == 6;
  }
}
