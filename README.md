# Contact-form controller, modelled in Dafny

The portfolio site's only component with real control flow is its contact
form (`src/components/Contact.jsx`). It holds four pieces of state:

- `form`: the name, email and message typed so far;
- `errors`: a per-field error message, or null;
- `loading`: whether a send is in flight;
- `submissionStatus`: null, "success" or "error".

Three handlers act on that state:

- `validateForm` rebuilds the error map from the form. Name and message must
  be non-blank after `trim()`. The email must be non-blank and must contain
  a substring matched by `/\S+@\S+\.\S+/`.
- `handleChange` writes one field, nulls that field's error if it was set,
  and resets the status.
- `handleSubmit` validates. On failure it reports "error" and sends nothing.
  On success it raises `loading` and sends one request to the email relay.
  When the send settles, a delivery empties the form and reports "success".
  A failed send keeps the form and reports "error".

The project is organised as follows:

- `text.dfy` (module `JsString`): the ECMAScript whitespace set that `trim`
  and `\s` share, and `trim` itself.
- `email_regex.dfy` (module `EmailRegex`): what the regular-expression search
  means (`Matches`, some substring matches), a direct check of it (`Test`)
  and the proof that the two agree.
- `validation.dfy` (module `Validation`): fields, the form record, the error
  map and `Validate`, the map `validateForm` builds.
- `contact.dfy` (module `Contact`):
  - the component state as a value, with one pure transition per handler:
    `Change`, `BeginSubmit` (up to the `await`), `CompleteSubmit` (after it)
    and `Submit` (both);
  - lemmas relating these transitions;
  - class `ContactForm`, whose four fields are the four `useState` cells.
    Its methods update those fields in place, and each method's
    postcondition equates the new state with the matching transition.

The remote send is represented by the request it carries (`Payload`) and by
how it settles (`Outcome`: `Delivered` or `Failed`). The outcome is a
parameter of the submit methods.

## Model

| member | source | states |
|---|---|---|
| `JsString.TrimStartKeepsSuffix` | src/components/Contact.jsx:108 | the leading part `trim` removes is all whitespace; what remains is a suffix of the input that is empty or starts with a non-whitespace character |
| `JsString.TrimEndKeepsPrefix` | src/components/Contact.jsx:108 | the trailing part `trim` removes is all whitespace; what remains is a prefix that is empty or ends with a non-whitespace character |
| `JsString.Trim` | src/components/Contact.jsx:108-118 | `s.trim()` is empty exactly when every character of `s` is whitespace; otherwise it neither starts nor ends with whitespace |
| `JsString.TrimIsSlice` | src/components/Contact.jsx:108 | `s.trim()` is a contiguous slice `s[a..b]` of the input, and everything before `a` and from `b` on is whitespace |
| `EmailRegex.TestIsSearch` | src/components/Contact.jsx:113 | the check succeeds exactly when some indices i < j < k < l make `s[i..l]` a non-whitespace run, then `@`, then a non-whitespace run, then `.`, then a non-whitespace run (an unanchored search) |
| `EmailRegex.MatchesIsNotBlank` | src/components/Contact.jsx:111-115 | an email the pattern accepts is never blank, so "required" and "invalid" never both apply |
| `EmailRegex.MatchesExtends` | src/components/Contact.jsx:113 | text added before or after an accepted email, whitespace included, never makes it rejected |
| `EmailRegex.NoAtNoMatch` | src/components/Contact.jsx:113 | a string without `@` is rejected |
| `Validation.FormState.With` | src/components/Contact.jsx:125 | `{ ...form, [name]: value }` sets the named field to the value and leaves the other two unchanged |
| `Validation.Validate` | src/components/Contact.jsx:107-118 | name error present iff the name is all whitespace, with text "Your name is required."; email error "Your email is required." if all whitespace, else "Please enter a valid email address." if the pattern does not match, else absent; message error present iff the message is all whitespace, with text "A message is required."; every entry is a non-empty message (no stale null survives); the map is empty iff all three checks pass |
| `Validation.MissingNameOnly` | src/components/Contact.jsx:108-118 | `{ "", "a@b.com", "hi" }` yields only the name error |
| `Validation.InvalidEmailOnly` | src/components/Contact.jsx:111-118 | `{ "A", "not-an-email", "hi" }` yields only the invalid-email error |
| `Validation.WellFormedAccepted` | src/components/Contact.jsx:107-120 | `{ "A", "a@b.com", "hi" }` yields no errors |
| `Validation.BlankFormRejected` | src/components/Contact.jsx:107-118 | a form whose three fields are blank (the emptied form among them) yields all three "required" errors |
| `Contact.Change` | src/components/Contact.jsx:123-131 | the named field takes the new value and the others are kept; status becomes null; `loading` is kept; the error keys are unchanged; a truthy error for the field becomes null and no other entry changes; without a truthy error the map is untouched |
| `Contact.ChangeIdempotent` | src/components/Contact.jsx:123-131 | the same edit made twice leaves exactly the state it leaves once |
| `Contact.BeginSubmit` | src/components/Contact.jsx:137-158 | the form is kept; errors become the rebuilt map; a request goes out iff all checks pass, and at most one goes out; without one, the status is "error" and `loading` is kept; with one, `loading` is true, the status is null and the request carries the form |
| `Contact.CompleteSubmit` | src/components/Contact.jsx:160-173 | `loading` becomes false and errors are kept; a delivery gives status "success" and an all-empty form; a failure gives status "error" and keeps the form |
| `Contact.Submit` | src/components/Contact.jsx:133-174 | an invalid form: no send, status "error", form and `loading` kept; a valid form: exactly one send with `from_name` = name, `to_name` fixed, `from_email` = `email` = email, `to_email` fixed, `message` = message, then `loading` false and the outcome decides between success with an emptied form and error with the form kept |
| `Contact.RetryAfterFailure` | src/components/Contact.jsx:169-173 | after a failed send of a valid form, submitting again sends the same request |
| `Contact.NoResendAfterSuccess` | src/components/Contact.jsx:137-168 | after a delivered send, submitting again without editing sends nothing and reports "error" |
| `Contact.DeliveredScenario` | src/components/Contact.jsx:142-168 | `{ "A", "a@b.com", "hi" }` delivered: one request with those values, then an empty form, no errors, `loading` false, status "success" |
| `Contact.ContactForm.constructor` | src/components/Contact.jsx:12-20 | the component starts with an empty form, no errors, `loading` false and a null status |
| `Contact.ContactForm.ValidateForm` | src/components/Contact.jsx:106-121 | replaces the error map with the one built from the form; returns true iff that map has no keys, iff all checks pass; form, `loading` and status are not modified |
| `Contact.ContactForm.HandleChange` | src/components/Contact.jsx:123-131 | the new state is `Change` of the old one |
| `Contact.ContactForm.StartSubmit` | src/components/Contact.jsx:133-158 | the new state and the requests sent are those of `BeginSubmit` |
| `Contact.ContactForm.FinishSubmit` | src/components/Contact.jsx:160-173 | the new state is `CompleteSubmit` of the old one |
| `Contact.ContactForm.HandleSubmit` | src/components/Contact.jsx:133-174 | the new state and the requests sent are those of `Submit` |

## Left out

- Rendering is not modelled: the JSX, the class strings, the error styling
  and the status banners (src/components/Contact.jsx:176-270).
- The local `slideIn` variant builder and the `ActionHub` link table
  (src/components/Contact.jsx:26-104) are not modelled. They are animation
  parameters and static links.
- The `emailjs.send` transport is not modelled. Neither are the service id,
  template id and public key read from the environment. Only the request's
  template parameters and the success or failure of the call are modelled;
  the error object is not inspected by the source either.
- `console.log`/`console.error` output and `e.preventDefault()` are event and
  diagnostic plumbing, and are not modelled.
- Concurrency is not modelled. This covers React's asynchronous, batched
  `setState`, handlers that read a stale `form` closure, and the `disabled`
  button that blocks a second submit while one is in flight. Each handler
  is one sequential step. `StartSubmit` and `FinishSubmit` split
  `handleSubmit` at its `await`, but nothing orders other calls between them.
- `handleChange` is modelled only for the three input names the form
  renders (`name`, `email`, `message`). An event from any other input name
  would add a new key to `form`; the model has no such case.
- Strings are sequences of Unicode code points, whereas JavaScript strings
  are UTF-16 code units. Every whitespace code point lies in the Basic
  Multilingual Plane, and a character outside it counts as non-whitespace
  either way. So `trim` and the `\S`-based pattern give the same verdicts
  on both representations.
- `handleChange` sets the field's error to `null` and keeps its key
  (src/components/Contact.jsx:127-129); it does not delete the key. `Change`
  does the same: the key set is unchanged and the entry holds `None`.
- src/constants/index.js, src/components/About.jsx and src/components/Tech.jsx
  are not modelled. They hold static content and presentational mapping
  only.
