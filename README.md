# Company creation in the jobeir client, modelled in Dafny

This project models the two pieces of the jobeir job-board client that carry
real logic:

- the company-creation Redux "duck" (`client/modules/jobs/ducks/index.js`):
  the action constants, `initialState`, the reducer that turns
  `CREATE_COMPANY_REQUEST`, `CREATE_COMPANY_SUCCESS` and
  `CREATE_COMPANY_FAILURE` actions into new slice objects, and the
  `createCompany` action creator;
- the pure parts of the company form
  (`client/modules/user-input/forms/form/CompanyForm.js`): the phone
  parser `parsePhone`, the request body that `formSubmit` builds from the
  form values and the session user's id, and the `companySizeOptions`
  table.

JavaScript values are modelled by `JsValue.Value`; a plain object is a
`map<string, Value>` of its own properties, so `Object.assign({}, state,
patch)` is `state + patch` and `{ ...data, id }` is `data["id" := id]`.
Property reads that JavaScript would reject (`undefined.data`,
`null.errors`) make the reducer return `Throw(TypeError(..))` instead of a
state, so the reducer's error paths are part of the model. A reducer call
whose state argument is omitted is `Reduce(None, action)`.

Files: `js_value.dfy` (module `JsValue`), `jobs_ducks.dfy` (module
`JobsDucks`), `company_form.dfy` (module `CompanyForm`).

## Model

| member | source | states |
|---|---|---|
| JobsDucks.InitialStateShape | client/modules/jobs/ducks/index.js:9-12 | the initial slice has exactly `isLoading = false` and `errors = []`, and no `details` |
| JobsDucks.Reduce | client/modules/jobs/ducks/index.js:14-33 | for every action, a returned state keeps every key of the input and adds only `isLoading`, `errors` or `details`; every other key keeps its value; only SUCCESS and FAILURE actions can throw |
| JobsDucks.UndefinedStateIsInitial | client/modules/jobs/ducks/index.js:14 | a call with the state omitted behaves exactly as a call with `initialState` |
| JobsDucks.RequestRaisesLoading | client/modules/jobs/ducks/index.js:16-19 | REQUEST never throws, sets `isLoading` to true and leaves every other key (`errors`, `details`, anything else) as it was |
| JobsDucks.RequestIdempotent | client/modules/jobs/ducks/index.js:16-19 | applying REQUEST to its own result gives the same state |
| JobsDucks.SuccessStoresCompany | client/modules/jobs/ducks/index.js:20-24 | SUCCESS throws exactly when `payload` is not an object or `payload.data` is undefined or null; otherwise `isLoading` becomes false, `details` becomes `payload.data.company` and all other keys, a stale `errors` list included, are unchanged |
| JobsDucks.FailureStoresErrors | client/modules/jobs/ducks/index.js:25-29 | FAILURE throws exactly when `action.errors` is undefined or null; otherwise `isLoading` becomes false, `errors` becomes `action.errors.errors` and all other keys, `details` included, are unchanged |
| JobsDucks.OtherActionsKeepState | client/modules/jobs/ducks/index.js:30-31 | any action whose type is none of the three company constants returns the input state unchanged |
| JobsDucks.JobActionsKeepState | client/modules/jobs/ducks/index.js:5-7 | the declared `CREATE_JOB_*` actions are unhandled and leave the state unchanged |
| JobsDucks.CreateCompany | client/modules/jobs/ducks/index.js:35 | the created action has exactly the keys `type` and `payload`; its type is `CREATE_COMPANY_REQUEST` and its payload is an object whose only key is `data`, holding the given data |
| JobsDucks.CreateCompanyRaisesLoading | client/modules/jobs/ducks/index.js:16-35 | reducing `createCompany(data)` from any state sets `isLoading` to true and changes nothing else |
| JobsDucks.RequestThenSuccessNotLoading | client/modules/jobs/ducks/index.js:16-24 | REQUEST followed by a SUCCESS that does not throw ends with `isLoading = false`, from any starting state |
| JobsDucks.RequestThenFailureNotLoading | client/modules/jobs/ducks/index.js:16-29 | REQUEST followed by a FAILURE that does not throw ends with `isLoading = false`, from any starting state |
| JobsDucks.ReducePreservesWellFormed | client/modules/jobs/ducks/index.js:14-33 | a slice with a boolean `isLoading` and an `errors` entry keeps both through every action that does not throw; if this duck is the reducer behind the store's `company` slice (an assumption: the store wiring is not part of this model), the form's `company.errors` read always finds the key |
| CompanyForm.ParsePhone | client/modules/user-input/forms/form/CompanyForm.js:17 | the parsed phone number holds only ASCII digits `0`-`9` and is never longer than the input |
| CompanyForm.ParsePhoneConcat | client/modules/user-input/forms/form/CompanyForm.js:17 | the global replace distributes over concatenation: `parsePhone(a + b) == parsePhone(a) + parsePhone(b)` |
| CompanyForm.ParsePhoneUnchangedIff | client/modules/user-input/forms/form/CompanyForm.js:17 | the input is returned unchanged if and only if it is all digits; otherwise the output is strictly shorter |
| CompanyForm.ParsePhoneIdempotent | client/modules/user-input/forms/form/CompanyForm.js:17 | parsing a parsed number changes nothing |
| CompanyForm.ParsePhoneKeepsDigits | client/modules/user-input/forms/form/CompanyForm.js:17 | each digit occurs in the output as often as in the input; no other character occurs |
| CompanyForm.ParsePhoneIsSubsequence | client/modules/user-input/forms/form/CompanyForm.js:17 | the output is a subsequence of the input (order is preserved) |
| CompanyForm.DigitSubsequenceBound | client/modules/user-input/forms/form/CompanyForm.js:17 | no all-digit subsequence of the input is longer than the output |
| CompanyForm.ParsePhoneIsDigitSubsequence | client/modules/user-input/forms/form/CompanyForm.js:17 | the output is the unique longest all-digit subsequence of the input, i.e. exactly the input's digits in order |
| CompanyForm.SubmitBody | client/modules/user-input/forms/form/CompanyForm.js:38 | the body maps `id` to the session user's id, carries every other key of the form data unchanged and adds no other key |
| CompanyForm.SubmitBodyIgnoresFormId | client/modules/user-input/forms/form/CompanyForm.js:38 | an `id` in the form data never reaches the body: dropping it first gives the same body |
| CompanyForm.SubmitActionCarriesUserId | client/modules/user-input/forms/form/CompanyForm.js:35-40 | the jobs duck's request action built from the body carries it as `payload.data`, with the user's id as `id`, and reducing it only raises the loading flag |
| CompanyForm.CompanySizeOptionsShape | client/modules/user-input/forms/form/CompanyForm.js:19-27 | seven options; only the first (the placeholder) has an empty value; every other option's name equals its value; the values are pairwise distinct |

## Left out

- `parsePhone`'s `value.toString()` coercion: the input is modelled as a string already; numbers and other values passed to the parser are not modelled.
- The React component, `connect`, `reduxForm`, `mapStateToProps` and the `dispatch` call in `formSubmit`: the model stops at the action that would be dispatched. The session user id (`state.session.user._id`) is a parameter.
- `formSubmit` dispatches the `createCompany` of `client/modules/create/company/ducks`, which is not part of this model; `SubmitActionCarriesUserId` composes the body with the `createCompany` of the jobs duck instead, assuming the other creator builds the same action.
- The `required` and `phoneNumber` validators live in files that are not part of this model.
- Strings: a Dafny `string` is a sequence of Unicode scalar values, while a JavaScript string is a sequence of UTF-16 code units, so the length facts about `ParsePhone` count characters rather than `.length` units, and lone surrogates cannot be represented. The output of `parsePhone` is the same either way, since every unit that is not an ASCII digit is deleted.
- `JsValue.Value` has no function or symbol variants; values of those kinds are not modelled.
- JavaScript numbers are modelled as integers only; floating point plays no part in the modelled code.
- Properties inherited through prototypes are not modelled: property reads see only own properties, and reads on strings, numbers, booleans and arrays give `undefined`. None of the keys the reducer reads (`type`, `payload`, `data`, `company`, `errors`) is inherited.
- A reducer state that is `null` or a primitive is not modelled; the state is either omitted or a plain object. Actions are plain objects, as Redux requires.
- Object identity: the default branch returns the very same object, which the model can only state as an equal value; key order of the built objects is not modelled.
- The server controller, the invitation lifecycle, the account, navigation and job-listing views: UI rendering, database and mail glue outside this core.
