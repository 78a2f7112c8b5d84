/** The sign-in / sign-up dialog: its open flag, the two form records, and the two
    submit handlers. */
module AuthModal {
  import opened Common

  datatype LoginForm = LoginForm(email: string, password: string)

  datatype RegisterForm = RegisterForm(name: string, email: string, password: string, confirmPassword: string)

  const LoginToast := Toast("Login Successful", "Welcome back to StonePath!", false)
  const MismatchToast := Toast("Error", "Passwords do not match", true)
  const RegisteredToast := Toast("Registration Successful", "Welcome to StonePath! Please verify your email.", false)

  /** The outcome of `handleRegister`: whether the dialog closes, and the toast. Only the
      two passwords are compared, exactly, with no trimming or case folding. */
  function RegisterOutcome(form: RegisterForm): (r: (bool, Toast))
    ensures r.0 <==> form.password == form.confirmPassword
    ensures r.1 == (if r.0 then RegisteredToast else MismatchToast)
    ensures r.1.destructive <==> !r.0
  {
    if form.password != form.confirmPassword then (false, MismatchToast) else (true, RegisteredToast)
  }

  /** The name and the e-mail are never inspected. */
  lemma RegisterIgnoresNameAndEmail(form: RegisterForm, name: string, email: string)
    ensures RegisterOutcome(form.(name := name, email := email)) == RegisterOutcome(form)
  {
  }

  /** A password differing only in case or in a trailing space does not match. */
  lemma PasswordsCompareExactly(name: string, email: string)
    ensures !RegisterOutcome(RegisterForm(name, email, "Stone", "stone")).0
    ensures !RegisterOutcome(RegisterForm(name, email, "stone", "stone ")).0
  {
    assert "Stone"[0] != "stone"[0];
    assert |"stone"| != |"stone "|;
  }

  class AuthModalState {
    var isOpen: bool
    var loginForm: LoginForm
    var registerForm: RegisterForm

    constructor ()
      ensures !isOpen && loginForm == LoginForm("", "") && registerForm == RegisterForm("", "", "", "")
    {
      isOpen := false;
      loginForm := LoginForm("", "");
      registerForm := RegisterForm("", "", "", "");
    }

    /** The dialog's `onOpenChange`. */
    method SetOpen(open: bool)
      modifies this
      ensures isOpen == open && loginForm == old(loginForm) && registerForm == old(registerForm)
    {
      isOpen := open;
    }

    /** The sign-in inputs' `onChange`. */
    method SetLoginForm(form: LoginForm)
      modifies this
      ensures loginForm == form && isOpen == old(isOpen) && registerForm == old(registerForm)
    {
      loginForm := form;
    }

    /** The sign-up inputs' `onChange`. */
    method SetRegisterForm(form: RegisterForm)
      modifies this
      ensures registerForm == form && isOpen == old(isOpen) && loginForm == old(loginForm)
    {
      registerForm := form;
    }

    /** `handleLogin`: always succeeds and closes, whatever was typed. */
    method HandleLogin() returns (toast: Toast)
      modifies this
      ensures toast == LoginToast && !isOpen
      ensures loginForm == old(loginForm) && registerForm == old(registerForm)
    {
      toast := LoginToast;
      isOpen := false;
    }

    /** `handleRegister`: mismatched passwords raise an error and leave the dialog as it
      was; matching ones close it. */
    method HandleRegister() returns (toast: Toast)
      modifies this
      ensures toast == RegisterOutcome(old(registerForm)).1
      ensures registerForm.password == registerForm.confirmPassword ==> !isOpen
      ensures registerForm.password != registerForm.confirmPassword ==> isOpen == old(isOpen)
      ensures loginForm == old(loginForm) && registerForm == old(registerForm)
    {
      if registerForm.password != registerForm.confirmPassword {
        return MismatchToast;
      }
      toast := RegisteredToast;
      isOpen := false;
    }
  }
}
