# Student roster manager — verified model of its state logic

The application is a single React component (`src/App.jsx`) that keeps a
roster of student records, a seven-field form for adding one, and a copy
of the roster in browser local storage under the key `"students"`. This
project models that component as a small state machine and proves what
its handlers promise:

- **Seed id backfill** (`Backfill`): the bundled seed list is copied in
  order; a record keeps its id when the id is truthy and otherwise gets
  the next id from the uuid generator; every other field is copied.
- **Initial load** (`Storage.InitialStudents`): a truthy saved value is
  parsed and becomes the roster; otherwise the backfilled seed does. A saved
  value that JSON cannot parse is the failure (the source throws, uncaught).
- **Submission** (`RosterApp.App.Submit`): if `fullName`, `image`, `phone`
  or `email` is empty, or `program` is the placeholder `"-- None --"`,
  nothing changes. Otherwise a record made of the seven form fields and a
  fresh id is appended, the form is reset to its initial values
  (`""` ×4, `"-- None --"`, `2023`, `false`) and the roster is saved.
- **Persistence** (`Storage.Save`, `RosterApp.App.Valid`): after mounting and
  after every roster change the store maps `"students"` to the serialised
  roster and no other key changes; form edits do not write the store.

Modules: `Wrappers` (the `Result` type), `Students` (records, the form
draft, the submission gate), `Backfill`, `Storage` (the key-value store,
the abstract JSON codec, the initial load) and `RosterApp` (class `App`
with the roster, the form fields and the store as fields, the mount, the
submit handler and the field setters). `RosterApp.Session` is a client
that replays a session (empty store, rejected submit, accepted submit,
reload) using only the contracts.

External pieces become parameters:

- uuid v4 becomes `gen: nat -> Uuid` for the seed backfill, where
  `gen(k)` is the result of the k-th call, so the generator is called once
  per record lacking an id. It becomes the `freshId` argument of `Submit`.
  `Uuid` is a 36-character string, so a generated id is never empty.
- `JSON.stringify`/`JSON.parse` become a `Codec` of two functions. The
  predicate `Lawful` states the one law the proofs use: parsing a
  roster's text gives that roster back, and the text is never empty. It is
  a hypothesis of the lemmas that need it, never assumed globally.
- Local storage becomes a `map<string, string>`, and the seed list becomes
  a parameter.

The code promises less than its comments suggest:

- The comments call the ids unique (src/App.jsx:3, 10, 57), but nothing
  makes them so. Seed ids are kept as they are, and nothing checks a
  generated id against them. The model proves only that two backfilled
  ids differ when the generator does not repeat within one backfill
  (`Backfill.GeneratedIdsDistinct`).
- `graduationYear` starts as the number 2023. After any edit it holds the
  raw text of the input (`e.target.value`). The model's `Year` type has
  both shapes.
- A loaded or seeded roster is not validated. Only a submitted record is
  guaranteed a real program, and `Submit` keeps a placeholder-free roster
  placeholder-free.
- An id is a string. `""` stands for every falsy id (missing, `null`,
  empty).

## Model

| member | source | states |
|---|---|---|
| Students.NewStudent | src/App.jsx:56-65 | the record built from a complete draft carries exactly the draft's seven fields (`FormOf(s) == d`) and the generated id, so its id is truthy and its program is never the placeholder |
| Students.InitialDraftRejected | src/App.jsx:37-53 | the form as it starts and as it is after a reset never passes the submission gate |
| Students.AppendKeepsNoSentinel | src/App.jsx:50-68 | appending a gated record leaves the roster placeholder-free exactly when it was before |
| Backfill.Missing | src/App.jsx:12-13 | the number of generator calls the backfill makes is at most the number of records |
| Backfill.Backfilled | src/App.jsx:11-15 | the backfill returns as many records as it is given |
| Backfill.MissingPrefixGrows | src/App.jsx:12-13 | a record lacking an id uses a smaller generator call number than any later such record, and one below the total number of calls |
| Backfill.BackfillAt | src/App.jsx:12-14 | record i of the output is input record i when its id is truthy, else input record i with the id from the generator call numbered by the falsy ids before it |
| Backfill.BackfillSound | src/App.jsx:11-15 | same length and order as the input; truthy ids kept; every field other than the id unchanged; every output id truthy |
| Backfill.GeneratedIdsDistinct | src/App.jsx:13 | when the generator does not repeat within one backfill, two records that lacked ids get different ids |
| Backfill.BackfillFixpoint | src/App.jsx:13 | a list with all ids truthy is returned unchanged and makes no generator call |
| Backfill.BackfillIdempotent | src/App.jsx:11-15 | backfilling an already backfilled list changes nothing, whatever the generator |
| Storage.SetItem | src/App.jsx:33 | writing a key sets that key to the value and leaves every other key as it was |
| Storage.Save | src/App.jsx:32-34 | after saving, `"students"` holds the serialised roster; no other key is added, removed or changed |
| Storage.InitialStudents | src/App.jsx:19-26 | a truthy saved value loads as its parse, for any store and codec; otherwise the load is the backfilled seed, succeeds, and has as many records as the seed; only a truthy saved value can make the load fail |
| Storage.SeedFallback | src/App.jsx:23-25 | with nothing saved (absent or empty), the roster is the seed in order with truthy ids kept, other fields kept and every id truthy |
| Storage.ReloadAfterSave | src/App.jsx:20-33 | under a lawful codec, loading right after saving a roster returns exactly that roster, whatever the seed and generator |
| RosterApp.App.Render | src/App.jsx:29-43 | first render: the roster is the loaded one, every form field has its initial value, and the store is the given one with the roster saved |
| RosterApp.App.Mount | src/App.jsx:19-34 | mounting fails exactly when the initial load fails; otherwise the roster is the initial load, the form is initial, and the store is the old store with the roster saved |
| RosterApp.App.Submit | src/App.jsx:46-78 | accepted exactly when the draft passes the gate; rejected leaves roster, form and store unchanged; accepted appends one record (old roster kept as prefix, the draft's fields, the fresh id, never the placeholder program), resets the form, and saves; the store always matches the roster |
| RosterApp.App.SetFullName | src/App.jsx:95 | only `fullName` changes; roster and store untouched, so the store still matches the roster |
| RosterApp.App.SetImage | src/App.jsx:107 | only `image` changes; roster and store untouched, so the store still matches the roster |
| RosterApp.App.SetPhone | src/App.jsx:119 | only `phone` changes; roster and store untouched, so the store still matches the roster |
| RosterApp.App.SetEmail | src/App.jsx:131 | only `email` changes; roster and store untouched, so the store still matches the roster |
| RosterApp.App.SetProgram | src/App.jsx:143 | only `program` changes; roster and store untouched, so the store still matches the roster |
| RosterApp.App.SetGraduationYear | src/App.jsx:160 | only `graduationYear` changes, to the raw input text; roster and store untouched, so the store still matches the roster |
| RosterApp.App.SetGraduated | src/App.jsx:173 | only `graduated` changes, to the checkbox state; roster and store untouched, so the store still matches the roster |

## Left out

- JSX markup, `Navbar`, `TableHeader`, `StudentCard`, CSS and the list rendering (src/App.jsx:80-196): presentation only.
- uuid internals: the generator is an arbitrary function. Global id uniqueness is not claimed, because the code does not ensure it.
- JSON internals: the codec is abstract. Its round trip is a hypothesis (`Lawful`), and it is used only where a proof needs it. Precision loss of very large numbers in JSON is not modelled.
- The uncaught throw on a malformed saved value has no recovery. The model returns `Failure(MalformedJson)`, and `Mount` returns `null`.
- Browser I/O: the `localStorage` API itself, `alert` (the `false` result of `Submit` marks it) and `e.preventDefault`.
- React state scheduling and batching: each handler, together with the save effect it triggers, is one atomic transition.
- The 2023–2030 range of the graduation year input: only the browser widget enforces it, so no bound is claimed.
- Seed contents (`students.json`): the seed is a parameter.
- The model assumes that saved and seed values are lists of eight-field records with string ids. A saved value that is valid JSON but not an array (such as `null`) mounts in the source and makes the next accepted submit throw; the model cannot express it. The same goes for a numeric seed id (`0` is falsy, other numbers truthy).
- Several browser tabs sharing one store: the model has one actor.
