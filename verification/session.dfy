/** The page as a sequential event loop: every user gesture and every
    settlement of the pending request is one event, applied atomically to the
    state of `ContactForm`. The lemmas here relate a whole run to reference
    definitions that read the event history directly, which is how the
    workflow's invariants (flag reset, result never stale, form cleared only
    on delivery) are stated. */
module Session {
  import opened Wrappers
  import opened Fetch
  import opened ContactForm

  datatype Event =
      /** The form's submit event, which the browser fires once its own
          validation of the inputs passes. */
    | Submit
      /** The pending request settled with this outcome. */
    | Settled(outcome: FetchOutcome)
    | Typed(field: Field, value: string)
    | MenuButton
    | MenuLink

  /** The state after one event, and the request it sent, if any. */
  datatype Step = Step(state: State, sent: Option<Request>)

  predicate IsControl(ev: Event) {
    ev.Submit? || ev.Settled?
  }

  /** One event. A submit while the button is disabled does not reach the
      handler; an enabled submit sends exactly one request, carrying the form
      as it was at that moment. */
  function Dispatch(s: State, ev: Event, env: Option<string>): (r: Step)
    ensures r.sent.Some? <==> ev.Submit? && SubmitEnabled(s)
    ensures r.sent.Some? ==> r.sent.value.body == s.form && r.sent.value.url == ContactUrl(env)
    ensures ev.Submit? && !SubmitEnabled(s) ==> r.state == s
  {
    match ev
    case Submit =>
      if SubmitEnabled(s) then
        var started := Begin(s, env);
        Step(started.state, Some(started.request))
      else
        Step(s, None)
    case Settled(o) => Step(Settle(s, o), None)
    case Typed(f, v) => Step(Edit(s, f, v), None)
    case MenuButton => Step(ToggleMenu(s), None)
    case MenuLink => Step(CloseMenu(s), None)
  }

  /** The state after the events, in order, starting from `s`. */
  function Run(s: State, evs: seq<Event>, env: Option<string>): State
    decreases |evs|
  {
    if |evs| == 0 then s
    else Dispatch(Run(s, evs[..|evs| - 1], env), evs[|evs| - 1], env).state
  }

  /** The requests sent while the events are applied from `s`, in order.
      Every one of them targets the contact endpoint. */
  function Requests(s: State, evs: seq<Event>, env: Option<string>): (rs: seq<Request>)
    ensures forall i :: 0 <= i < |rs| ==> rs[i].url == ContactUrl(env) && rs[i].verb == "POST"
    decreases |evs|
  {
    if |evs| == 0 then []
    else
      var prefix := evs[..|evs| - 1];
      var sent := Dispatch(Run(s, prefix, env), evs[|evs| - 1], env).sent;
      Requests(s, prefix, env) + (if sent.Some? then [sent.value] else [])
  }

  /** The most recent submit or settlement in the history, if any. */
  function LastControl(evs: seq<Event>): (r: Option<Event>)
    ensures r.Some? ==> IsControl(r.value)
    ensures r.Some? ==> exists j :: 0 <= j < |evs| && evs[j] == r.value
                          && forall k :: j < k < |evs| ==> !IsControl(evs[k])
    ensures r.None? ==> forall i :: 0 <= i < |evs| ==> !IsControl(evs[i])
    decreases |evs|
  {
    if |evs| == 0 then None
    else if IsControl(evs[|evs| - 1]) then Some(evs[|evs| - 1])
    else LastControl(evs[..|evs| - 1])
  }

  /** The number of submissions the user could start: submits that are the
      first control event or follow a settlement. A submit right after
      another submit finds the button disabled. */
  function Attempts(evs: seq<Event>): nat
    decreases |evs|
  {
    if |evs| == 0 then 0
    else
      var prefix := evs[..|evs| - 1];
      Attempts(prefix) + (if evs[|evs| - 1].Submit? && LastControl(prefix) != Some(Submit) then 1 else 0)
  }

  /** What field `f` reads after the history, read off the events: the value
      last typed into it, unless a delivered submission came later, and the
      empty string when nothing was typed since the start or since the last
      delivery. */
  function LastEntry(evs: seq<Event>, f: Field): string
    decreases |evs|
  {
    if |evs| == 0 then ""
    else
      var ev := evs[|evs| - 1];
      if ev.Typed? && ev.field == f then ev.value
      else if ev.Settled? && Delivered(ev.outcome) then ""
      else LastEntry(evs[..|evs| - 1], f)
  }

  /** The result that should be on screen after the history: none while a
      submission is pending or before the first one, otherwise the report of
      the latest settlement. */
  function ExpectedResult(evs: seq<Event>): Option<SubmissionResult> {
    match LastControl(evs)
    case Some(Settled(o)) => Some(Report(o))
    case _ => None
  }

  /** The flag is up exactly when the latest control event is a submit: every
      settlement lowers it, whatever its outcome, and it is never up at rest. */
  lemma {:induction false} SubmittingIffAwaitingSettlement(evs: seq<Event>, env: Option<string>)
    ensures Run(Initial, evs, env).submitting <==> LastControl(evs) == Some(Submit)
    decreases |evs|
  {
    if |evs| > 0 {
      SubmittingIffAwaitingSettlement(evs[..|evs| - 1], env);
    }
  }

  /** The result is never stale: it is cleared by the submit that starts an
      attempt and set by that attempt's settlement from its outcome alone. */
  lemma {:induction false} ResultIsLatestSettlement(evs: seq<Event>, env: Option<string>)
    ensures Run(Initial, evs, env).result == ExpectedResult(evs)
    decreases |evs|
  {
    if |evs| > 0 {
      var prefix := evs[..|evs| - 1];
      ResultIsLatestSettlement(prefix, env);
      SubmittingIffAwaitingSettlement(prefix, env);
    }
  }

  /** Every field holds what the user last typed into it, except that a
      delivered submission empties all of them; failures never do. */
  lemma {:induction false} FieldIsLastEntry(evs: seq<Event>, env: Option<string>, f: Field)
    ensures Get(Run(Initial, evs, env).form, f) == LastEntry(evs, f)
    decreases |evs|
  {
    if |evs| > 0 {
      FieldIsLastEntry(evs[..|evs| - 1], env, f);
    }
  }

  /** Failed attempts, menu use and ignored submits keep the form exactly as
      it was, so the user can retry without retyping. */
  lemma {:induction false} FailuresKeepForm(s: State, evs: seq<Event>, env: Option<string>)
    requires forall i :: 0 <= i < |evs| ==> !evs[i].Typed?
    requires forall i :: 0 <= i < |evs| ==> !(evs[i].Settled? && Delivered(evs[i].outcome))
    ensures Run(s, evs, env).form == s.form
    decreases |evs|
  {
    if |evs| > 0 {
      FailuresKeepForm(s, evs[..|evs| - 1], env);
    }
  }

  /** One network call per submission attempt and none while a request is
      pending: the disabled button is the only guard, and it suffices in a
      sequential run. */
  lemma {:induction false} OneRequestPerAttempt(evs: seq<Event>, env: Option<string>)
    ensures |Requests(Initial, evs, env)| == Attempts(evs)
    decreases |evs|
  {
    if |evs| > 0 {
      var prefix := evs[..|evs| - 1];
      OneRequestPerAttempt(prefix, env);
      SubmittingIffAwaitingSettlement(prefix, env);
    }
  }
}
