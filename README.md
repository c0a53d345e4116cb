# Udyam registration workflow, modelled in Dafny

A model of the registration workflow of the `udyam-frontend` React application. The `App` component walks the user through four steps: step 1 is the Aadhaar number, step 2 the OTP, step 3 the PAN and step 4 the registration form. Each step has a submit handler. The handler clears its own error slot or slots, runs local checks (only steps 1 and 4 have any), and makes one POST to the backend only if those checks pass. On `response.ok && data.success` the workflow moves one step forward; step 4 instead shows a success alert. Otherwise the handler stores the server's message, or a default message for that step, in the step's error slot. A thrown exception stores a fixed "Network error" message.

The project has three modules:

- `Text` (`text.dfy`): the `/^\d{12}$/` Aadhaar format test and the upper-casing done by the PAN input.
- `Workflow` (`workflow.dfy`): the component state as a value.
  - One function per submit handler. Each gives the new state, the request that was sent (`None` when the local checks stopped the submit) and whether success was acknowledged.
  - `Apply` and `Run`, which replay user events and calls over the state.
  - Lemmas about whole runs: the step only moves forward and never skips a step, `isLoading` is false between events, and the PAN field is always upper case.
- `App` (`app.dfy`): the `Session` class. It has one field per `useState` slot and one method per handler. Each method updates the fields in the order the component does. Each is proved to leave exactly the state that the matching `Workflow` function gives.

The backend is not modelled. Each handler takes the outcome of its call as a parameter: `Transport`, or `Reply(ok, success, message)`, with `""` standing for an absent or empty message.

The model follows the code, not an idealised workflow:

- There is no "completed" step. A successful final submit leaves `step == 4` and only shows an alert, modelled as `acknowledged`.
- `isLoading` is raised and reset only by the Aadhaar handler. Steps 2 to 4 have no pending-request flag.
- Step 4 has a single `registrationError`, not one error per field.
- The step changes by a direct assignment of `k + 1`. There is no separate `advance(from, to)` operation.
- The registration handler's network-error text ("Network error. Failed to submit registration.") differs from the other three handlers' text ("Network error. Failed to connect to the backend.").

## Model

| member | source | states |
|---|---|---|
| Text.IsTwelveDigits | src/App.jsx:50 | the Aadhaar format test `/^\d{12}$/`: the whole string has length exactly 12 and every character is an ASCII digit `0`–`9` |
| Text.UpperChar | src/App.jsx:289 | the result is never an ASCII lower-case letter; an ASCII lower-case letter maps to the upper-case letter at the same alphabet position; every other character, non-ASCII letters included, is unchanged (ASCII-only, see Left out) |
| Text.ToUpperAscii | src/App.jsx:289 | the normalised PAN has the typed length, holds the upper case of each typed character at the same position, and contains no lower-case ASCII letter |
| Text.UpperFixesUpper | src/App.jsx:289 | a string with no lower-case letter is left unchanged by the PAN normaliser |
| Text.ToUpperIdempotent | src/App.jsx:289 | normalising an already normalised PAN changes nothing |
| Text.TwelveDigitExamples | src/App.jsx:50 | "381467472016" passes the Aadhaar format test; "12345" and "12a456789012" fail it |
| Text.TwelveDigitsIsAnchored | src/App.jsx:50 | the pattern is anchored at both ends: a valid number with any non-empty text added before or after fails |
| Workflow.Initial | src/App.jsx:8-31 | the initial `useState` values: the workflow starts on step 1, settled (isLoading false, PAN upper case), with every error slot empty; consent is not given, the Aadhaar number fails the format test and the required registration fields are not filled, so no submit can pass its local checks before input |
| Workflow.Accepted | src/App.jsx:70 | the success test `response.ok && data.success`: the call completed with a reply whose status is ok and whose `success` is truthy |
| Workflow.FailureText | src/App.jsx:73-76 | the message a failed call stores, `data.message`, else the step's default, or the fixed network text after an exception: a transport failure gives the network text, a reply gives its message when non-empty and otherwise the default, and with non-empty fallbacks the message is never empty |
| Workflow.RequiredFilled | src/App.jsx:146 | the negation of the registration guard: organization type, business name, bank account, IFSC code, business activity and NIC code are all non-empty |
| Workflow.WithField | src/App.jsx:306-401 | an onChange of one registration input sets that field to the new value and leaves the other seven as they were |
| Workflow.RequiredFilledIsPerField | src/App.jsx:146-149 | the registration guard passes exactly when each of the six required fields is non-empty; address and employee count play no part |
| Workflow.AadhaarSubmit | src/App.jsx:42-81 | the call is made iff the number is twelve ASCII digits and consent is given, and it carries the number and the name; a bad number gives the format message; missing consent gives the consent message whatever the number, so both can be set at once; an accepted reply moves to step 2 and leaves both slots empty; any other reply leaves step 1 and stores the message or the Aadhaar default; a transport failure stores the network text; isLoading is false after any call and untouched without one; fields and the other steps' errors are unchanged |
| Workflow.OtpSubmit | src/App.jsx:83-104 | the call is always made, with the Aadhaar number and the OTP; accepted moves to step 3 with an empty OTP error; rejected stays on step 2 with the message or the OTP default; a transport failure gives the network text; only otpError and step change |
| Workflow.PanSubmit | src/App.jsx:106-126 | the call is always made, with the PAN; accepted moves to step 4 with an empty PAN error; rejected stays on step 3 with the message or the PAN default; a transport failure gives the network text; only panError and step change |
| Workflow.RegistrationSubmit | src/App.jsx:128-167 | the call is made iff the six required fields are non-empty, and it carries all eleven values; otherwise "Please fill in all required fields." is stored; success is acknowledged iff the call was made and accepted, and then the error is empty; a rejection stores the message or the registration default; a transport failure stores the registration network text; the step stays 4; only registrationError changes |
| Workflow.StaleErrorIsCleared | src/App.jsx:42-167 | whatever an earlier attempt left in a handler's own error slot or slots has no effect on the errors after the next submit |
| Workflow.Apply | src/App.jsx:204-401 | an input or submit of the form shown for the current step either keeps the step or moves it up by exactly one, and only on an Aadhaar, OTP or PAN submit carrying an accepted outcome; an event of a form not shown leaves the state exactly as it was; a state with isLoading false and an upper-case PAN stays that way |
| Workflow.RunIsForwardOnly | src/App.jsx:60-126 | over any sequence of events the step never decreases and rises by no more than the number of Aadhaar, OTP and PAN submits carrying an accepted outcome |
| Workflow.RunStaysSettled | src/App.jsx:60-80 | over any sequence of events isLoading stays false and the PAN stays upper case |
| Workflow.FromInitial | src/App.jsx:8-31 | from the initial state, reaching the registration form takes at least three submits carrying an accepted outcome, and every reachable state has isLoading false and an upper-case PAN |
| App.Session.constructor | src/App.jsx:8-31 | the session starts on step 1 with every input and error empty, no consent and not loading |
| App.Session.ChangePanNumber | src/App.jsx:289 | the PAN field holds the upper case of what was typed, and nothing else changes |
| App.Session.HandleAadhaarSubmit | src/App.jsx:42-81 | the new fields and the request sent are exactly those given by Workflow.AadhaarSubmit |
| App.Session.HandleOtpSubmit | src/App.jsx:83-104 | the new fields and the request sent are exactly those given by Workflow.OtpSubmit |
| App.Session.HandlePanSubmit | src/App.jsx:106-126 | the new fields and the request sent are exactly those given by Workflow.PanSubmit |
| App.Session.HandleRegistrationSubmit | src/App.jsx:128-167 | the new fields, the request sent and the acknowledgement are exactly those given by Workflow.RegistrationSubmit |

## Left out

- Rendering, CSS classes, the header, the navigation links and static text are presentation. Only the rule "a form is shown when `step` equals its number" is kept. It becomes each handler's `requires step == k` and the `FormOf` guard in `Workflow.Apply`.
- `fetch`, the endpoint URLs, headers, `JSON.stringify` and `response.json()` are network I/O. They become the `Outcome` parameter and the `Request` value. A body that cannot be parsed is the `Transport` case.
- `data.success` is reduced to its truthiness. A truthy `data.message` that is not a string is not modelled.
- `alert` is a browser side effect and is modelled only as the `acknowledged` result.
- `event.preventDefault()` only suppresses the page reload, so it is not modelled.
- The `useEffect` that pre-fills a test Aadhaar number, and the unused test OTP constant, are test fixtures. `Initial` starts with an empty Aadhaar number. The Luhn check named in a comment is not implemented in the code, so it is not modelled.
- `async`/`await` interleaving is not modelled: each handler runs atomically. For that reason the `isLoading` value `true` is never observable, and neither is the disabled Aadhaar button it drives. The forward-only results (`Workflow.RunIsForwardOnly`, `Workflow.FromInitial`) depend on this atomicity. The OTP and PAN buttons are never disabled, and each handler assigns a constant step. So two overlapping OTP submits could move the step from 4 back to 3 when the later accepted reply arrives, which the model does not capture.
- Text.UpperChar: upper-cases only ASCII `a`–`z` and leaves every other character unchanged, whereas `toUpperCase` also maps non-ASCII lower-case letters (`é` becomes `É`); full Unicode case mapping is not modelled.
- Text.ToUpperAscii: maps only ASCII `a`–`z`. JavaScript's `toUpperCase` also maps non-ASCII letters, and can change the length (`ß` becomes `SS`); that is not captured.
- The onChange setters of the other inputs are plain field assignments. In `App.Session` they are direct writes to the public fields. In `Workflow.Apply` they are the `...Changed` events.
