# XModal form modal, modelled in Dafny

The XModal component is a React modal dialog. It holds a four-field form: username, email, phone and date of birth. It has two small pieces of logic, and this project models both.

- **The validator** (`validation.dfy`, module `Validation`) runs when the form is submitted. It maps the record `FormData(username, email, phone, dob)` to an error map `map<Field, string>`. That map holds one entry for each field that fails its rule, and the entry carries that rule's fixed message. Two host services become the two functions of a `Host` value:
  - `isNumeric(s)` stands for `!isNaN(s)`, JavaScript's string-to-number test.
  - `isFuture(s)` stands for `new Date(s) > new Date()`.

  The model assumes only one thing about the host. `DigitsAreNumeric(h)` says that a non-empty string of decimal digits is numeric.
- **The component state** (`modal.dfy`, module `Modal`) has four cells: `isOpen`, `formData`, `errors` and `submitted`. The class `XModal` keeps them as mutable fields. Each handler is a method with `modifies this`, and its postconditions give the whole new state. Each method is also tied to `Step`, a pure transition function over `ModalState` values. The lemmas about event sequences (`Run`) are proved over `Step`. The DOM test "the click target lies outside the modal content" becomes a boolean argument.

The code as written has these consequences, which the model keeps:
- A successful submit sets `submitted` but does not clear `errors`. Messages from an earlier failed attempt therefore stay in place. `Modal.StaleErrorsAfterSuccessfulSubmit` exhibits a run that ends submitted with all four old messages still present. So "submitted" and "errors shown" are not mutually exclusive.
- A field that the user corrects after a failed submit keeps its error until the next failing submit or a close.
- A failing submit leaves `submitted` as it was.

## Model

| member | source | states |
|---|---|---|
| Validation.With | src/XModal.jsx:56-61 | the changed field holds the new value; every other field keeps its value |
| Validation.Validate | src/XModal.jsx:63-88 | username error iff username is empty; email error iff there is no '@' (this covers the empty email); phone error iff it is empty, its length is not 10 or it is not numeric; dob error iff it is empty or in the future; each entry carries its literal message, and dob's message depends on emptiness |
| Validation.ValidateIsExactlyTheFailures | src/XModal.jsx:64-88 | the key set is exactly the fields whose rule (`Fails`) fails, and each value is that field's message (`Message`) |
| Validation.TenDigitPhoneAccepted | src/XModal.jsx:71-78 | a ten-character all-digit phone never gets an error, given only that digit strings are numeric |
| Validation.DobMessages | src/XModal.jsx:79-87 | a dob error is the "missing" message exactly when dob is empty, so the two messages never both apply; a non-empty date that is not in the future gets no error |
| Validation.ValidateEmptyIff | src/XModal.jsx:63-89 | the error map is empty exactly when all four rules pass |
| Validation.SampleRecordIsValid | src/XModal.jsx:63-89 | the record ("alice", "a@b.com", "1234567890", "2000-01-01") passes whenever 2000-01-01 is not in the future |
| Validation.SampleInputs | src/XModal.jsx:68-78 | "foo.bar" gets an email error, "a@b" gets none, and "12345" gets a phone error |
| Modal.Step | src/XModal.jsx:17-94 | the five handlers on a state value (each `XModal` method ensures its new state is `Step` of the old); only opening opens the modal; the form changes only by an input change or the full reset; the errors change only by a failing submit (to its non-empty map) or the full reset; `submitted` becomes true only by a submit that found no errors |
| Modal.StepKeepsClosedIsReset | src/XModal.jsx:39-61 | every enabled event keeps "closed implies empty form, no errors and not submitted" |
| Modal.RunKeepsClosedIsReset | src/XModal.jsx:39-100 | along any sequence of events that respects the render guard at line 100 (`Enabled`: input changes and submits only while open), the closed-implies-reset invariant holds throughout |
| Modal.ReopenStartsEmpty | src/XModal.jsx:39-54 | after any history that starts from mount, opening a closed modal shows an empty form with no errors and submitted false |
| Modal.ChangeWhileClosedBreaksReset | src/XModal.jsx:56-61 | `handleChange` does not test `isOpen`, so the invariant rests on the render guard (line 100, `Enabled`): a change delivered to a closed modal would break it |
| Modal.StaleErrorsAfterSuccessfulSubmit | src/XModal.jsx:89-94 | the run from mount (open, submit the empty form, fill it in validly, submit) ends open and submitted, its errors are exactly the four messages the empty form produced, and its current form validates with no errors |
| Modal.XModal.constructor | src/XModal.jsx:6-14 | the state cells start closed, with an empty form, no errors and submitted false |
| Modal.XModal.HandleOpenModal | src/XModal.jsx:39-41 | sets `isOpen`; the other cells are unchanged |
| Modal.XModal.HandleCloseModal | src/XModal.jsx:43-54 | closed, form emptied, errors cleared, submitted false |
| Modal.XModal.HandleChange | src/XModal.jsx:56-61 | the named field holds the new value; the other fields and the other three cells are unchanged |
| Modal.XModal.HandleSubmit | src/XModal.jsx:63-94 | form and visibility unchanged; with an empty error map, submitted is set and the errors are untouched; otherwise the errors are replaced and submitted is untouched |
| Modal.XModal.HandleOutsideClick | src/XModal.jsx:17-30 | an outside click on an open, unsubmitted modal closes it with a full reset; on an open, submitted modal it only clears submitted; any other click changes nothing |

## Left out

- Rendering, the CSS import and the inline error spans (src/XModal.jsx:97-154) are presentation. The only logic there is "show the entry if present". It matters to the model in one way: the inputs and the submit button exist only while the modal is open. `Enabled` defines that guard; `RunKeepsClosedIsReset` assumes it and `ChangeWhileClosedBreaksReset` shows it is needed.
- React's `useState`, `useEffect` and `useRef` are not modelled. Nor is adding and removing the `mousedown` listener. Each handler is one atomic transition on the current state. React's batching and the capture of state in closures between renders are not modelled.
- The component has no close control; `handleCloseModal` is called only from the outside-click handler (src/XModal.jsx:24-25). The model still offers `CloseModal` as an event of its own in any state. The run lemmas therefore cover a superset of the program's runs, including a direct close of a submitted modal that the program cannot perform.
- `modalContentRef.current` is non-null exactly while the content is rendered, that is while the modal is open. The outside-click condition therefore becomes "open and the target is outside". The DOM `contains` test is the boolean argument `outside`.
- The order of DOM events within one gesture is not modelled. For example, pressing the "Open Form" button while the modal is open fires an outside mouse-down before the click. Events are taken one at a time.
- `isNaN` and JavaScript's ToNumber are host functions. They are `Host.isNumeric`, constrained only by `DigitsAreNumeric`. Strings with whitespace, signs, a decimal point or an exponent may therefore be numeric, as they are in JavaScript.
- `Date` parsing and the clock are host services. They are `Host.isFuture`, left unconstrained. Calendar-invalid strings are not modelled apart from that function.
- Phone length is counted in characters, whereas JavaScript counts UTF-16 code units. The two differ only for non-BMP characters, and no string containing those is numeric, so the phone verdict is unchanged.
- The simulated server submission is only a comment at src/XModal.jsx:90 with no code behind it, so nothing models it.
