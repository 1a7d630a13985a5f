/** The component-local state of the contact section of `App`
    (src/App.jsx, lines 4-7) and the transitions its handlers perform:
    the two halves of `handleSubmit` around its `await`, the controlled-input
    handlers and the mobile-menu handlers. Each transition is atomic: React's
    batching of the `set...` calls is not observable in this sequential model. */
module ContactForm {
  import opened Wrappers
  import opened Fetch

  /** The four controlled form inputs. */
  datatype Form = Form(name: string, email: string, subject: string, message: string)

  datatype Field = Name | Email | Subject | Message

  /** Both the initial form and the form after a successful submission. */
  const EmptyForm: Form := Form("", "", "", "")

  function Get(form: Form, f: Field): string {
    match f
    case Name => form.name
    case Email => form.email
    case Subject => form.subject
    case Message => form.message
  }

  /** `{ ...form, [f]: v }`: replaces one field and keeps the other three. */
  function SetField(form: Form, f: Field, v: string): (r: Form)
    ensures Get(r, f) == v
    ensures forall g :: g != f ==> Get(r, g) == Get(form, g)
  {
    match f
    case Name => form.(name := v)
    case Email => form.(email := v)
    case Subject => form.(subject := v)
    case Message => form.(message := v)
  }

  /** The message shown inline under the form, coloured by `ok`. */
  datatype SubmissionResult = SubmissionResult(ok: bool, message: string)

  const SentMessage: string := "Thanks! Your message has been sent."

  datatype State = State(
    menuOpen: bool,
    form: Form,
    submitting: bool,
    result: Option<SubmissionResult>)

  /** The `useState` initial values. */
  const Initial: State := State(false, EmptyForm, false, None)

  /** The one outbound request of a submission. The body is the form itself;
      its JSON serialisation is not modelled. */
  datatype Request = Request(verb: string, url: string, contentType: string, body: Form)

  const DefaultBackend: string := "http://localhost:8000"
  const ContactPath: string := "/api/contact"

  /** The request target: the configured backend when that value is truthy,
      the local development server otherwise, followed by the contact path.
      The configured value is used verbatim, so a trailing `/` in it yields a
      doubled slash. */
  function ContactUrl(env: Option<string>): (url: string)
    ensures |url| > |ContactPath|
    ensures url[|url| - |ContactPath|..] == ContactPath
    ensures Truthy(env) ==> url[..|url| - |ContactPath|] == env.value
    ensures !Truthy(env) ==> url[..|url| - |ContactPath|] == DefaultBackend
  {
    var base := if Truthy(env) then env.value else DefaultBackend;
    base + ContactPath
  }

  /** The submit button is disabled while a submission is in flight. */
  predicate SubmitEnabled(s: State) {
    !s.submitting
  }

  /** The state once a submission has started, and the request it sent. */
  datatype Started = Started(state: State, request: Request)

  /** The synchronous half of `handleSubmit`, up to the `await fetch(...)`:
      raise the flag, clear the previous result and issue the request built
      from the form as it is now. Nothing else changes. The handler itself
      does not look at the flag; only the disabled button guards it. */
  function Begin(s: State, env: Option<string>): (r: Started)
    ensures r.state.submitting && r.state.result.None?
    ensures r.state.form == s.form && r.state.menuOpen == s.menuOpen
    ensures r.request.verb == "POST" && r.request.contentType == "application/json"
    ensures r.request.url == ContactUrl(env) && r.request.body == s.form
  {
    Started(s.(submitting := true, result := None),
            Request("POST", ContactUrl(env), "application/json", s.form))
  }

  /** The result the `try`/`catch` pair reports for an outcome. */
  function Report(o: FetchOutcome): (r: SubmissionResult)
    ensures r.ok <==> Delivered(o)
    ensures r.ok ==> r.message == SentMessage
    ensures !r.ok ==> Thrown(o) == Some(r.message)
  {
    match Thrown(o)
    case None => SubmissionResult(true, SentMessage)
    case Some(m) => SubmissionResult(false, m)
  }

  /** The asynchronous half of `handleSubmit`, after the request settled:
      on delivery the success message is shown and the form is emptied; on
      every failure the message of the thrown error is shown and the form is
      kept for a retry; on both paths the `finally` block lowers the flag.
      The menu is never touched. */
  function Settle(s: State, o: FetchOutcome): (r: State)
    ensures !r.submitting
    ensures r.menuOpen == s.menuOpen
    ensures r.result.Some?
    ensures r.result.value.ok <==> Delivered(o)
    ensures Delivered(o) ==> r.result.value.message == SentMessage && r.form == EmptyForm
    ensures !Delivered(o) ==> r.form == s.form && Thrown(o) == Some(r.result.value.message)
    ensures o.TransportError? ==> r.result.value.message == o.message
    ensures o.Received? && o.body.Unparsable? ==> r.result.value.message == o.body.parseError
    ensures (o.Received? && !StatusOk(o.status) && o.body.Null?)
              ==> r.result.value.message == o.body.accessError
    ensures (o.Received? && !StatusOk(o.status) && o.body.Parsed?)
              ==> r.result.value.message == (if Truthy(o.body.detail) then o.body.detail.value else SubmissionFailed)
  {
    var res := Report(o);
    var next := if res.ok then s.(result := Some(res), form := EmptyForm) else s.(result := Some(res));
    next.(submitting := false)
  }

  /** One `onChange` handler of the four inputs: only field `f` changes. */
  function Edit(s: State, f: Field, v: string): (r: State)
    ensures Get(r.form, f) == v
    ensures forall g :: g != f ==> Get(r.form, g) == Get(s.form, g)
    ensures r.menuOpen == s.menuOpen && r.submitting == s.submitting && r.result == s.result
  {
    s.(form := SetField(s.form, f, v))
  }

  /** The hamburger button: flips the menu and nothing else. */
  function ToggleMenu(s: State): (r: State)
    ensures r.menuOpen != s.menuOpen
    ensures r.form == s.form && r.submitting == s.submitting && r.result == s.result
  {
    s.(menuOpen := !s.menuOpen)
  }

  /** A link in the mobile menu: closes the menu and nothing else. */
  function CloseMenu(s: State): (r: State)
    ensures !r.menuOpen
    ensures r.form == s.form && r.submitting == s.submitting && r.result == s.result
  {
    s.(menuOpen := false)
  }

  /** Two toggles cancel out; closing twice is closing once. */
  lemma MenuHandlersAlgebra(s: State)
    ensures ToggleMenu(ToggleMenu(s)) == s
    ensures CloseMenu(CloseMenu(s)) == CloseMenu(s)
    ensures CloseMenu(ToggleMenu(s)) == CloseMenu(s)
  {
  }

  /** After a `Begin` and its `Settle` the result depends on the outcome
      alone: neither the earlier result nor the form of either starting
      state leaks into it, edits made while the request was in flight are
      wiped on delivery and kept otherwise, and the flag is down again. */
  lemma AttemptResultIsFresh(s1: State, s2: State, o: FetchOutcome, env: Option<string>, f: Field, v: string)
    ensures Settle(Begin(s1, env).state, o).result == Settle(Begin(s2, env).state, o).result == Some(Report(o))
    ensures !Settle(Edit(Begin(s1, env).state, f, v), o).submitting
    ensures Settle(Edit(Begin(s1, env).state, f, v), o).form
              == (if Delivered(o) then EmptyForm else SetField(s1.form, f, v))
  {
  }
}
