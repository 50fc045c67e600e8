/** The registration form (`app/register/page.tsx`): the ordered checks of
    `handleSubmit`, written as the sequence of effects it performs (state
    setters, the call to `register`, navigation), and the demo presets. The
    `register` function itself is not part of this model: it appears only as
    the effect of calling it. */
module RegisterPage {

  datatype RegisterForm = RegisterForm(name: string, email: string, password: string, confirmPassword: string)

  /** What `handleSubmit` does, in order. */
  datatype Effect =
    | SetError(message: string)
    | SetLoading(on: bool)
    | Register(name: string, email: string, password: string)
    | Navigate(path: string)

  const MissingFields: string := "Preencha todos os campos"
  const PasswordMismatch: string := "As senhas não conferem"

  /** None of the four fields is empty. */
  predicate AllFilled(f: RegisterForm) {
    f.name != "" && f.email != "" && f.password != "" && f.confirmPassword != ""
  }

  /** `handleSubmit`: clear the error and start loading; then reject a form
      with an empty field, then one whose passwords differ, each time
      stopping the loading; otherwise register and go to the home page. */
  function HandleSubmit(f: RegisterForm): (effects: seq<Effect>)
    ensures |effects| == 4 && effects[0] == SetError("") && effects[1] == SetLoading(true)
    ensures Register(f.name, f.email, f.password) in effects <==> AllFilled(f) && f.password == f.confirmPassword
    ensures Navigate("/") in effects <==> AllFilled(f) && f.password == f.confirmPassword
    ensures forall i :: 0 <= i < |effects| && effects[i].Register? ==> i == 2 && effects[3] == Navigate("/")
  {
    [SetError(""), SetLoading(true)] +
    if !AllFilled(f) then [SetError(MissingFields), SetLoading(false)]
    else if f.password != f.confirmPassword then [SetError(PasswordMismatch), SetLoading(false)]
    else [Register(f.name, f.email, f.password), Navigate("/")]
  }

  /** The visible state the setters drive. */
  datatype FormStatus = FormStatus(error: string, loading: bool)

  /** The state after one effect: only the setters change it. */
  function Perform(s: FormStatus, e: Effect): FormStatus {
    match e
    case SetError(m) => s.(error := m)
    case SetLoading(on) => s.(loading := on)
    case _ => s
  }

  /** The state after the effects run, one after another. */
  function Apply(s: FormStatus, effects: seq<Effect>): FormStatus
    decreases |effects|
  {
    if effects == [] then s else Apply(Perform(s, effects[0]), effects[1..])
  }

  /** The outcome of a submit, whatever the state before: an empty field wins
      over a password mismatch; both errors stop the loading; a valid form
      leaves no error and keeps loading while it registers. */
  lemma SubmitOutcome(f: RegisterForm, s: FormStatus)
    ensures var r := Apply(s, HandleSubmit(f));
            && (!AllFilled(f) ==> r == FormStatus(MissingFields, false))
            && (AllFilled(f) && f.password != f.confirmPassword ==> r == FormStatus(PasswordMismatch, false))
            && (AllFilled(f) && f.password == f.confirmPassword ==> r == FormStatus("", true))
  {
    var e := HandleSubmit(f);
    var s1 := Perform(s, e[0]);
    var s2 := Perform(s1, e[1]);
    var s3 := Perform(s2, e[2]);
    var s4 := Perform(s3, e[3]);
    assert Apply(s3, e[3..]) == s4 by { assert e[3..][1..] == []; }
    assert Apply(s2, e[2..]) == Apply(s3, e[3..]) by { assert e[2..][1..] == e[3..]; }
    assert Apply(s1, e[1..]) == Apply(s2, e[2..]) by { assert e[1..][1..] == e[2..]; }
  }

  /** Nothing but a complete form with matching passwords reaches `register`
      or the navigation. */
  lemma OnlyValidFormsRegister(f: RegisterForm)
    ensures forall k :: 0 <= k < |HandleSubmit(f)| && (HandleSubmit(f)[k].Register? || HandleSubmit(f)[k].Navigate?) ==>
              AllFilled(f) && f.password == f.confirmPassword
  {
  }

  /** The two demo buttons. */
  datatype Preset = UserPreset | AdminPreset

  /** `quickRegister`: fills a demo name and email and the sentinel password
      twice; the error message and loading flag are not touched. */
  function QuickRegister(kind: Preset): (r: RegisterForm)
    ensures r.name != "" && r.email != ""
    ensures r.password == "password" && r.confirmPassword == "password"
  {
    match kind
    case UserPreset => RegisterForm("João Silva", "joao@email.com", "password", "password")
    case AdminPreset => RegisterForm("Admin Charger", "admin@evcharge.com", "password", "password")
  }

  /** A form filled by either preset passes both checks and registers. */
  lemma QuickRegisterPasses(kind: Preset, s: FormStatus)
    ensures var g := QuickRegister(kind);
            Register(g.name, g.email, g.password) in HandleSubmit(g) &&
            Apply(s, HandleSubmit(g)) == FormStatus("", true)
  {
    SubmitOutcome(QuickRegister(kind), s);
  }
}
