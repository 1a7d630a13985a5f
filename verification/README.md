# Contact-form submission workflow

A Dafny model of the one piece of behaviour in the portfolio page `App`
(`src/App.jsx`): the contact form. The component keeps four pieces of local
state — whether the mobile menu is open, the four form fields, a
`submitting` flag and the last submission result. Its submit handler raises
the flag, clears the result, POSTs the form to `<backend>/api/contact`,
parses the JSON reply and shows either a thank-you message (emptying the
form) or the message of whatever error was thrown, and lowers the flag in a
`finally` block.

The model is functional:

- `Fetch` (fetch.dfy): the settled network call as an input datatype
  (`TransportError`, or `Received(status, body)` with an unparsable, `null`
  or parsed body) and `Thrown`, the error message the handler's `try` block
  raises for it. `res.ok` is a status in 200–299, per section 2.2.3 of the
  WHATWG Fetch Standard.
- `ContactForm` (contact_form.dfy): the state record, the request target,
  and the transitions — `Begin` (the handler up to its `await`), `Settle`
  (the rest of it), `Edit`, `ToggleMenu`, `CloseMenu`.
- `Session` (session.dfy): a sequential run of UI events and settlements,
  with the disabled submit button as the only guard, and lemmas that relate
  any run to definitions read directly off the event history.
- `Wrappers` (wrappers.dfy): `Option`.

Notes on the code's behaviour that the model makes explicit:

- The body is parsed before the status is checked. A non-ok response with a
  non-JSON body shows the parser's message, not `"Submission failed"`. An ok
  response with a non-JSON body (for example an empty 204 reply) is reported
  as a failure, and the form is kept.
- `data.detail` is read only on the non-ok path. A JSON `null` body is
  harmless on success. On failure it throws a TypeError, and that error's
  message is what the user sees.
- The configured backend URL is used verbatim when it is non-empty. A
  trailing `/` therefore produces `//api/contact`.
- The handler itself does not look at `submitting`. Only the disabled
  button keeps a second request from starting while one is pending.
- Edits made while a request is pending are wiped if it is delivered,
  because the success path resets the whole form.

## Model

| member | source | states |
|---|---|---|
| `Fetch.Thrown` | src/App.jsx:16-22 | The `try` block completes exactly on an ok status with a parseable body. A transport failure yields its own message. An unparsable body yields the parser's message whatever the status. A non-ok status yields the `null`-access error, or `detail` when it is a non-empty string, or else `"Submission failed"` |
| `Fetch.ServerRejectionHasMessage` | src/App.jsx:22 | A server rejection with a parsed body is always reported with a non-empty message, because the `||` fallback is non-empty |
| `ContactForm.SetField` | src/App.jsx:193-206 | The spread update writes the chosen field and leaves the other three as they were |
| `ContactForm.ContactUrl` | src/App.jsx:9-16 | The target always ends in `/api/contact` and never consists of that path alone. The part before it is the configured value when that value is non-empty, and `http://localhost:8000` otherwise |
| `ContactForm.Begin` | src/App.jsx:12-20 | Starting a submission raises the flag and clears the previous result. It sends one JSON POST to the contact URL whose body is the current form. Form and menu are untouched |
| `ContactForm.Report` | src/App.jsx:22-26 | The reported result is ok exactly when the submission was delivered, and then carries the thank-you text. Otherwise it carries the thrown error's message |
| `ContactForm.Settle` | src/App.jsx:21-29 | After settlement the flag is down on every path and a result is present. Delivery shows the thank-you text and empties the form. Every failure keeps the form and shows the matching message, with the parse error taking precedence over the status. The menu is untouched |
| `ContactForm.Edit` | src/App.jsx:193-206 | Typing changes only the edited field. It does not touch the flag, the result or the menu |
| `ContactForm.ToggleMenu` | src/App.jsx:55 | The menu button flips the menu and changes nothing else |
| `ContactForm.CloseMenu` | src/App.jsx:63 | A menu link closes the menu and changes nothing else |
| `ContactForm.MenuHandlersAlgebra` | src/App.jsx:55-63 | Toggling twice is the identity. Closing is idempotent, and closing after a toggle is the same as just closing |
| `ContactForm.AttemptResultIsFresh` | src/App.jsx:12-29 | After `Begin` then `Settle` the result is the outcome's report, whatever the earlier result or form was. Edits made while the request is pending are wiped on delivery and kept on failure, and the flag is down |
| `Session.Dispatch` | src/App.jsx:189-208 | A request is sent exactly when a submit arrives while the button is enabled. It carries the form at that moment. A submit while disabled changes nothing |
| `Session.Requests` | src/App.jsx:16-20 | Every request a run sends is a POST to the contact URL |
| `Session.SubmittingIffAwaitingSettlement` | src/App.jsx:11-29 | In any run from the initial state, the flag is up exactly when the latest submit has not been followed by a settlement. It is never up at rest |
| `Session.ResultIsLatestSettlement` | src/App.jsx:13-29 | In any run from the initial state, the shown result is absent before the first settlement and while a submission is pending. Otherwise it is the report of the latest settlement, never an older attempt's |
| `Session.FieldIsLastEntry` | src/App.jsx:22-26 | In any run from the initial state, each field holds the value last typed into it, unless a delivered submission came later, in which case it is empty. Failures never clear it |
| `Session.FailuresKeepForm` | src/App.jsx:22-26 | From any state, a run with no typing and no delivered submission leaves the form exactly as it was |
| `Session.OneRequestPerAttempt` | src/App.jsx:189-208 | In any run from the initial state, the number of requests sent equals the number of submits that start a new attempt. Those are submits that come first or right after a settlement, so a submit while a request is pending sends nothing |

## Left out

- Rendering: the JSX markup, CSS classes and the static lists (navigation items, services, work, testimonials) have no behaviour beyond displaying fixed data.
- The `fetch` transport, the request headers beyond their values, `JSON.stringify` of the form and the internals of `res.json()` are foreign calls. Their observable results enter only through the `FetchOutcome` input, and the request body is the `Form` value itself.
- `e.preventDefault()` has no effect on the modelled state.
- React's batching of state updates and re-render scheduling are not modelled, and neither is interleaving inside the `await`. `Begin` and `Settle` are atomic steps, and a run is a sequence of such steps.
- Concurrent submissions are not modelled: a submit that bypasses the disabled button is outside the design.
- A settlement with no pending request cannot happen in the program. The model does not forbid one, and applies `Settle` to whatever state it finds, so the run lemmas hold for every event sequence.
- The lookup of `import.meta.env.VITE_BACKEND_URL` is not modelled. Its value is an input, `None` when it is undefined.
- The footer's `new Date().getFullYear()` depends on the clock and is presentation only.
- Browser-side validation (`required`, `type="email"`) is done by the browser, not by this code, so the model accepts any field values.
- A `detail` member that is not a string (a number, object or boolean, converted by `new Error(...)`) is not modelled. `detail` is either absent or a string.
