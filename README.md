# Project form validator and observable project store

A model of the in-memory core of the drag-and-drop project manager in
`prj-00-initial-starting-setup/src/app.ts`:

- **`validate`** checks one value against a `Validatable` rule. It starts valid
  and ANDs in every supplied constraint. Text is trimmed and measured in UTF-16
  code units, then checked against `required`, `minLength` and `maxLength`.
  A number is checked against `min` and `max` only (module `Validation`, with
  `trim` and `length` in `Strings`).
- **The form** applies one rule per field, then adds a new active project to
  the store; input that fails a rule leaves the store untouched (module
  `ProjectInput`).
- **The store** (`State<T>` with its subclass `ProjectState`) keeps an
  append-only project list and an append-only listener list. Each
  `addProject` runs one notification round that calls every listener entry in
  registration order. `createState` hands out one lazily created instance
  (module `Store`: class `ProjectState`, class `StateHolder` for the static
  slot).
- **The project lists** each register a listener that keeps the projects of
  the list's own status, in store order (modules `Projects` and `ProjectLists`).
- **The `person` label** of a list item reads "n person assigned" for n ≤ 1
  and "n persons assigned" otherwise (module `Projects`, with the spelling
  of numbers in `Decimal`).

Listeners are arbitrary closures, so each one is an opaque `ListenerId`.
The store records every call as a `Notification`, holding the listener and
the project list it received, in the field `notifications`.

The numeric branch of `validate` (app.ts:116-125) never reads `required`.
So `0` with `required: true` and no `min` is valid. The model follows the
code here (`ValidateRequiredZero`). The form itself is unaffected, because
its people rule also sets `min: 1`.

## Model

| member | source | states |
|---|---|---|
| `Strings.Trim` | prj-00-initial-starting-setup/src/app.ts:104 | the result is the infix of the input after the leading and trailing whitespace; everything cut off is whitespace; a non-empty result starts and ends with a non-whitespace character; the result is empty exactly when the input is all whitespace |
| `Strings.TrimIdempotent` | prj-00-initial-starting-setup/src/app.ts:104 | trimming a trimmed string changes nothing |
| `Strings.Utf16Length` | prj-00-initial-starting-setup/src/app.ts:106-114 | `length` counts UTF-16 code units: between one and two per character, and zero only for the empty string |
| `Decimal.IntToString` | prj-00-initial-starting-setup/src/app.ts:165 | `${n}` is non-empty, made of digits and a minus sign, starts with `-` exactly for negative n, and has no leading zero (after the sign) |
| `Decimal.IntToStringRoundTrip` | prj-00-initial-starting-setup/src/app.ts:165 | reading back the spelling of any integer with a reader that accepts only canonical spellings gives that integer |
| `Validation.Validate` | prj-00-initial-starting-setup/src/app.ts:99-129 | text passes iff (`required` ⇒ trimmed text non-empty) and (minLength ⇒ trimmed length ≥ minLength) and (maxLength ⇒ trimmed length ≤ maxLength); a number passes iff (min ⇒ n ≥ min) and (max ⇒ n ≤ max) |
| `Validation.ValidateBare` | prj-00-initial-starting-setup/src/app.ts:100-127 | with only a value supplied, every string and every number is valid |
| `Validation.ValidateRequiredText` | prj-00-initial-starting-setup/src/app.ts:103-107 | `required` text passes iff it holds a non-whitespace character, so a whitespace-only string fails |
| `Validation.ValidateTextLength` | prj-00-initial-starting-setup/src/app.ts:109-115 | with minLength m and maxLength M, text passes iff m ≤ trimmed length ≤ M, both bounds inclusive |
| `Validation.ValidateNumberRange` | prj-00-initial-starting-setup/src/app.ts:116-125 | a number passes iff it is at least `min` and at most `max`, each taken alone or together |
| `Validation.ValidateNumberIgnoresTextRules` | prj-00-initial-starting-setup/src/app.ts:116-125 | two rules on the same number with the same min and max give the same verdict, whatever their required, minLength and maxLength |
| `Validation.ValidateTextIgnoresNumberRules` | prj-00-initial-starting-setup/src/app.ts:103-115 | two rules on the same text with the same required, minLength and maxLength give the same verdict, whatever their min and max |
| `Validation.ValidateRequiredZero` | prj-00-initial-starting-setup/src/app.ts:116-125 | 0 with `required: true` and no min is valid |
| `Validation.ValidateExamples` | prj-00-initial-starting-setup/src/app.ts:99-129 | "ab" fails and "abc" passes required + minLength 3; 0 fails and 5 passes required + min 1 + max 100 |
| `ProjectInput.TitleRule` | prj-00-initial-starting-setup/src/app.ts:261 | the title rule passes iff the trimmed title is at least 3 long |
| `ProjectInput.DescriptionRule` | prj-00-initial-starting-setup/src/app.ts:262 | the description rule passes iff the trimmed description is 10 to 100 long |
| `ProjectInput.PeopleRule` | prj-00-initial-starting-setup/src/app.ts:263 | the people rule passes iff 1 ≤ people ≤ 100 |
| `ProjectInput.ValidateInput` | prj-00-initial-starting-setup/src/app.ts:257-270 | the input is accepted iff trimmed title length ≥ 3, 10 ≤ trimmed description length ≤ 100 and 1 ≤ people ≤ 100; on acceptance the untrimmed values come back |
| `ProjectInput.BlankTitleRejected` | prj-00-initial-starting-setup/src/app.ts:261 | a whitespace-only title is rejected whatever the other fields hold |
| `ProjectInput.Submit` | prj-00-initial-starting-setup/src/app.ts:246-255 | valid input appends a new active project with the given fields and id, followed by one notification round; invalid input leaves projects, listeners and notifications unchanged |
| `Projects.Filter` | prj-00-initial-starting-setup/src/app.ts:217 | the view is no longer than the store, and a project is in it iff it is in the store with the list's status |
| `Projects.FilterAppend` | prj-00-initial-starting-setup/src/app.ts:217 | filtering splits over concatenation, so kept projects stay in store order |
| `Projects.FilterMultiplicity` | prj-00-initial-starting-setup/src/app.ts:217 | each project of the list's status is kept as many times as it occurs; no other project is kept |
| `Projects.FilterPartition` | prj-00-initial-starting-setup/src/app.ts:216-217 | the active view and the finished view together are as long as the store |
| `Projects.AddedProjectView` | prj-00-initial-starting-setup/src/app.ts:217 | after appending p, the view of p's status gains exactly p at its end and the other view is unchanged |
| `Projects.PersonLabel` | prj-00-initial-starting-setup/src/app.ts:164-166 | the label reads back as its count through a reader that accepts only the canonical spelling (no leading zero, no "-0"), followed by "person" when the count is at most 1 and "persons" otherwise |
| `Projects.NonCanonicalLabelsRejected` | prj-00-initial-starting-setup/src/app.ts:165 | a count spelled "05" or "-0" does not read back as a label, so the round trip fixes the `${n}` spelling |
| `Projects.PersonLabelInjective` | prj-00-initial-starting-setup/src/app.ts:164-166 | different counts give different labels |
| `Store.Round` | prj-00-initial-starting-setup/src/app.ts:51-53 | one round makes exactly one call per listener entry, duplicates included; the k-th call goes to the k-th entry with the full project list |
| `Store.ProjectState.constructor` | prj-00-initial-starting-setup/src/app.ts:29-43 | a new store has no listeners, no projects and no calls |
| `Store.ProjectState.AddListener` | prj-00-initial-starting-setup/src/app.ts:31-33 | the listener goes on the end of `listeners` and duplicates are kept; projects and calls are unchanged |
| `Store.ProjectState.UpdateState` | prj-00-initial-starting-setup/src/app.ts:50-54 | the calls made are exactly one round over the listeners with the current projects; listeners and projects are unchanged |
| `Store.ProjectState.AddProject` | prj-00-initial-starting-setup/src/app.ts:45-48 | `projects == old(projects) + [p]`, listeners unchanged, then one round with the new list; every list ever handed out stays a prefix of the current list |
| `Store.StateHolder.constructor` | prj-00-initial-starting-setup/src/app.ts:37 | the instance slot starts empty |
| `Store.StateHolder.CreateState` | prj-00-initial-starting-setup/src/app.ts:56-63 | the first call creates and stores a fresh empty store; every later call returns the stored one; the holder's invariant (a stored store keeps its own invariant) is kept |
| `ProjectLists.Shown` | prj-00-initial-starting-setup/src/app.ts:216-222 | a list shows nothing iff its listener was never called; otherwise it shows the filter, by its status, of the list handed to its most recent call |
| `ProjectLists.ShownAfterRound` | prj-00-initial-starting-setup/src/app.ts:216-224 | after a round, every registered list shows exactly the store's projects of its status, in store order |
| `ProjectLists.ThreeProjects` | prj-00-initial-starting-setup/src/app.ts:216-224 | with the store obtained from `createState`, after two active additions and one finished addition the active list shows 2 projects and the finished list 1 |

## Left out

- DOM rendering: template cloning, `insertAdjacentElement`, headings and list items (app.ts:131-152, 168-174, 218-222) are browser calls; the model keeps only what a list shows (`ProjectLists.Shown`).
- Drag handlers and event wiring (app.ts:176-214) only log or toggle CSS classes, and `drop` only throws "not implemented".
- `alert` and `clearInputs` (app.ts:267, 272-276) are UI side effects; a rejected submission is modelled as returning `false` with the store untouched.
- Reading the input elements (app.ts:258-260): the fields arrive as parameters.
- Project ids come from `Math.random()` (app.ts:71); the id is a parameter, and no uniqueness is claimed because the code does not guarantee it.
- JavaScript numbers: people count, `min`, `max`, `minLength` and `maxLength` are integers; fractional values and NaN (from `Number(...)` on bad text) are not modelled, nor the loss of precision above 2^53.
- Decimal.IntToString: matches `${n}` only for |n| < 10^21; JavaScript spells larger numbers in exponent form ("1e+21"). The form's people rule stops at 100.
- Strings are sequences of Unicode scalar values, so a JavaScript string holding a lone surrogate cannot be represented.
- Listener closures are not run: a listener is an id, and its call is recorded as a `Notification`. The source hands every listener the live `projects` array; the model records the list as it stood at the call, so a listener keeping the reference and seeing later pushes is not captured.
- The abstract base `State<T>` and its subclass are merged into one class `ProjectState`.
- The `Project` getters and setters (app.ts:74-96): `Project` is a value, because nothing calls the setters.
- The module-level `state` constant and the top-level instantiation (app.ts:67, 281-283).
