# Panic-button alert workflow, in Dafny

A model of the alert workflow of the Panic-Button-Pro server (`brain.py`).
A student's client reports a location. The server validates it and stores it
as the student's active alert, overwriting any earlier alert for that student.
It then pushes one notification to the campus-security dispatch channel and one
to each of the student's guardians. The dispatch dashboard reads the store, and
an operator resolves an alert by deleting it.

Files:

- `py_values.dfy` (module `PyValues`): the JSON values a request body carries.
  It models Python truthiness (`all([...])`), hashability and `str()` text.
  A number is kept as the text Python prints for it. Zero (`0`, `0.0`, `-0.0`)
  is falsy, so a latitude or longitude of zero counts as missing data.
- `pushbullet.dfy` (module `Pushbullet`): the push body as a dictionary that is
  filled in key by key. It is a `link` push with a `url` when a url is given,
  and a `note` otherwise. It carries `email` when the destination contains `@`,
  and `channel_tag` otherwise.
- `brain.dfy` (module `Brain`): the alert record and the directories (the
  shipped ones included). The handlers are pure functions (`Activation`,
  `Resolution`) that give the response, the new store and the pushes sent.
  The class `AlertServer` holds the store (`alerts`), the read-only directories
  (`dir`) and the outbox (`outbox`). Its methods do the work step by step, and
  each is proved to agree with its function.
- `brain_properties.dfy` (module `BrainProperties`): the workflow's promises
  as lemmas, plus a replay of any sequence of requests that keeps the store
  invariant.

Modelling choices:

- Each POST to the push provider becomes an append of its body to `outbox`.
  The source catches and logs a failed POST, so the failure leaves nothing
  observable. The model sends every push, and the response never depends on a
  send.
- The clock reading (`time.strftime("%H:%M:%S")`) and `request.host_url` are
  parameters of the activation.
- Store keys are whatever JSON value the request gave as `student_id`. The
  directories are keyed by text, so only a text id finds a name or guardians.
  A resolve takes its id from the URL path, so it only ever removes a text key.
- A non-empty JSON array or object as `student_id` passes the `all` check.
  `student_names.get` then raises because the value is unhashable, before the
  store is touched. Flask answers 500. The model gives `InternalError`, with no
  change and nothing sent.
- `all([...])` also refuses a latitude or longitude of 0 as missing data
  (brain.py:54).
- Pushes go out in a fixed order: dispatch first, then guardians in directory
  order (brain.py:69-76).

## Model

| member | source | states |
|---|---|---|
| `PyValues.All` | brain.py:54 | `all([...])` is true exactly when every listed value is truthy |
| `Pushbullet.Payload` | brain.py:27-38 | the body has exactly type, title, body, `url` when a url is given, and `email` or `channel_tag`; type is `link` iff the url is given and `url` holds it; `email` iff the destination contains `@`, `channel_tag` otherwise, holding the destination |
| `Brain.StudentName` | brain.py:57 | for a hashable id (the lookup raises on any other), the name is the directory's entry for a known text id and "Unknown Student" otherwise |
| `Brain.GuardianPushes` | brain.py:72-76 | one push per guardian, in directory order; push i goes to guardian i with the guardian title, body and map link |
| `Brain.Activation` | brain.py:47-79 | a falsy id, latitude or longitude gives MissingData with the store and outbox untouched; an unhashable id gives InternalError with nothing changed; success iff all three are truthy and the id hashable; on success the id's record is exactly {lat, lng, time, name}, every other key is unchanged, and 1 + number-of-guardians pushes are sent |
| `Brain.Resolution` | brain.py:88-93 | a present id is removed and every other record kept, with success; an absent id gives NotFound and the store unchanged; nothing is sent |
| `Brain.AlertServer.constructor` | brain.py:11-21 | a fresh server has an empty store, an empty outbox and the given directories |
| `Brain.AlertServer.SendNotification` | brain.py:24-44 | the outbox grows by exactly the one payload built from the arguments |
| `Brain.AlertServer.SendToGuardians` | brain.py:72-76 | the loop appends exactly the guardian pushes, in order |
| `Brain.AlertServer.ActivateAlert` | brain.py:47-79 | the response, the new store and the appended pushes are those of `Activation`; the store stays well formed |
| `Brain.AlertServer.GetAlertStatus` | brain.py:82-85 | returns the store verbatim and changes nothing |
| `Brain.AlertServer.ResolveAlert` | brain.py:88-93 | the response and new store are those of `Resolution`; the store stays well formed |
| `BrainProperties.MissingFieldIsRefused` | brain.py:54-55 | any falsy id, latitude or longitude yields 400, no store change, no push |
| `BrainProperties.ZeroCoordinateIsRefused` | brain.py:54-55 | a latitude or longitude of 0 or 0.0 is refused as missing data |
| `BrainProperties.ValidActivationSucceeds` | brain.py:54-79 | valid input always yields 200 and the store with the id overwritten by {lat, lng, time, name} |
| `BrainProperties.MissingOrUnhashableChangesNothing` | brain.py:54-57 | a refused activation is not a success, changes no record and sends nothing |
| `BrainProperties.LastActivationWins` | brain.py:61 | activating the same id twice leaves the same store as the second activation alone |
| `BrainProperties.DispatchTagIsChannel` | brain.py:9 | the dispatch tag holds no `@`, so it is routed as a channel |
| `BrainProperties.ActivationFanOut` | brain.py:63-76 | exactly 1 + guardians pushes; the first is exactly the dispatch push: a link push to the dispatch channel with url host + "dashboard", the dispatch title and the body carrying the activation time; push i after it goes to guardian i with the map link |
| `BrainProperties.NoGuardiansOnlyDispatch` | brain.py:72-76 | a student without guardians still succeeds and gets only the dispatch push |
| `BrainProperties.KnownStudentActivation` | brain.py:57-76 | a student with a registered name and a first guardian address gets a record under that name, 1 + guardians pushes, and the push after dispatch is emailed to that first guardian |
| `BrainProperties.ShippedDirectoryExample` | brain.py:14-21 | with the shipped directories, S12345 at (1.0, 2.0) gives one record named "John Doe" and six pushes, the second to example1@gmail.com |
| `BrainProperties.ResolveUndoesActivation` | brain.py:90-92 | raising then resolving an alert for a student with none active restores the store |
| `BrainProperties.ResolveTwiceIsNotFound` | brain.py:90-93 | a second resolve of the same id is a 404 and changes nothing |
| `BrainProperties.ActivationKeepsStoreWellFormed` | brain.py:54-61 | every stored key is a truthy hashable id with a truthy location, before and after an activation |
| `BrainProperties.ServeKeepsStoreWellFormed` | brain.py:47-93 | each handler keeps the store well formed |
| `BrainProperties.ReplayKeepsInvariant` | brain.py:47-93 | over any run of requests the store stays well formed and every key was already present or was the subject of an activation |
| `Pushbullet.KeyNamesDistinct` | brain.py:27-38 | the six body keys have distinct JSON names, so no key overwrites another |
| `BrainProperties.RunFromEmptyStore` | brain.py:12 | starting from the empty store, every active alert belongs to a student some request activated |

## Left out

- Flask routing, request JSON decoding and `jsonify`. A handler's result is the `Response` datatype and `StatusCode` gives its HTTP code. A request body that is not a JSON object (which makes `data.get` raise) is not modelled.
- `requests.post`, `raise_for_status` and the exception handler. Network I/O becomes an append to the outbox. The access-token header is configuration and is not part of the pushed body.
- `time.strftime`: the time text is a parameter.
- `render_template` pages, `app.run` and `print` logging are presentation, process startup and logging.
- Numeric meaning of latitude and longitude. They are never computed on, only stored and formatted, so a number is kept as its `str()` text.
- Python's equality across key types (`1 == 1.0 == True` as dictionary keys). Model store keys of different kinds are always distinct.
- Concurrent requests. The source takes no lock, and the model serves one request at a time.
