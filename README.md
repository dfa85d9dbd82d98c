# neontestdb branch lifecycle, in Dafny

neontestdb gives each Go test its own Neon database branch. The test asks for
a branch with a name derived from the host and the test. The client deletes
any stale branch of that name and creates a fresh one from the configured
parent branch. It retries the create while the project is Locked, hands the
branch's first connection URI to the test's callback, and deletes the branch
afterwards unless cleanup is switched off.

This project models that decision logic of `neontestdb.go`. The model works
against an abstract remote project.

- **Registry** (`registry.dfy`). The project's branches are a `seq<Branch>`
  in listing order, each with an identifier, a display name and a parent
  identifier. A URL path segment addresses a branch when it equals the
  branch's identifier or its name. The source deletes by name (line 78) and
  by identifier (line 59), so the service resolves both.
  - `GET /branches/{seg}` answers with the first addressed branch.
  - `DELETE /branches/{seg}` with 200 removes every addressed branch.
  - A `POST /branches` that succeeds appends the new branch.
- **Status handling** (`status.dfy`). Status codes are inputs, as the
  service's answers. `validateStatus` is a membership test. GET's 404 means
  absent. A create answered 423 Locked is retried. `log.Fatalf` and the
  panics of the Go code become the outcome `Fatal(failure)`
  (`results.dfy`).
- **Requests** (`wire.dfy`). URLs, verbs and the create request's body.
- **Retry schedule** (`retry.dfy`). The loop header of `CreateBranch` as
  written: durations are integer nanoseconds, and the step `retry += 10` is
  10 ns.
- **Naming** (`naming.dfy`). The test branch's name.
- **Lifecycle** (`lifecycle.dfy`). One function per client operation. Each
  gives the outcome, the registry afterwards, the requests sent, the sleeps
  taken and the URIs handed to the callback. The listed properties are
  lemmas about these functions.
- **Client** (`client.dfy`). The Go code as imperative Dafny:
  - class `Package` holds the package variable `defaultBranch`;
  - class `Client` has the Go methods;
  - class `Remote` is the project, with its branch list and the requests it
    received;
  - class `Clock` records `time.Sleep`;
  - class `Callback` records what the test's callback got, and the
    project's branches at the moment it was called.

  Each `Client` method is proved to change `Remote`, `Clock` and `Callback`
  exactly as the matching `Lifecycle` function says. The create loop keeps
  its `retry` variable and its loop invariants.

The service's answers are passed to each operation as parameters (the
`Replies` bundle): the status code of each request, one per POST attempt,
plus the identifier and connection URIs a successful create returns. The
lemmas about `ForcedCreateBranch` and `UsingBranch` assume the GET of a
branch answers truthfully (`Truthful`): 200 when the name addresses a
branch, 404 when it does not.

Three behaviours of the code are worth knowing:

- `retry += 10` (line 112) adds 10 to a `time.Duration`, that is 10 ns. The
  loop therefore allows (100 ms − 10 ms) / 10 ns + 1 = 9,000,001 attempts,
  and the sleeps grow by 10 ns each.
- When the branch listing answers 404, `GetBranches` returns nil (line 68),
  and `GetBranchByName` reads `.Branches` of that nil at line 97. The model
  gives the fatal outcome `NilDereference`.
- The branch name derivation (line 51) is not one-to-one. A `/` and a `.`
  in a test name give the same branch name, so the subtests `TestFoo/a.b`
  and `TestFoo/a/b` on one host share a branch (`Naming.SubtestsCollide`).

## Model

| member | source | states |
|---|---|---|
| HttpStatus.Contains | neontestdb.go:191 | true exactly when the code is in the list (`slices.Contains`) |
| HttpStatus.ValidateStatus | neontestdb.go:190-194 | succeeds exactly when the code is accepted; otherwise fails fatally with that code |
| HttpStatus.CheckFound | neontestdb.go:67-71 | 404 means absent, 200 means present, and any other code is fatal |
| HttpStatus.ClassifyCreate | neontestdb.go:120-125 | retry exactly on 423; accept exactly on 200 or 201; reject anything else with its code |
| HttpStatus.CheckDeleted | neontestdb.go:157 | a delete succeeds exactly on 200 |
| Registry.Locate | neontestdb.go:83-94 | the index of the first branch the segment addresses by identifier or name; None exactly when none does |
| Registry.Without | neontestdb.go:153-158 | the branches after a delete: exactly those the segment does not address; a one-branch listing keeps its branch exactly when the segment does not address it |
| Registry.WithoutConcat | neontestdb.go:153-158 | a delete filters a listing piece by piece, so the kept branches stay in their order, each once (with `Without`'s one-branch case this fixes the result) |
| Registry.FirstNamed | neontestdb.go:96-103 | the index of the first branch with that display name; None exactly when there is none |
| Registry.WithoutClearsName | neontestdb.go:78 | after deleting by a name, no branch is named or addressed by it |
| Registry.AppendOnly | neontestdb.go:80 | appending a branch under a free name leaves exactly one branch of that name, and the name now locates it |
| Naming.ReplaceSlashes | neontestdb.go:51 | same length; each `/` becomes `.` and every other character is kept; no `/` remains |
| Naming.TestBranchName | neontestdb.go:50-51 | length is host + 1 + test name; no `/`; the separator dot sits right after the host |
| Naming.TestBranchNameParts | neontestdb.go:51 | the name is the dotted host, a dot, then the dotted test name |
| Naming.TestBranchNameOfTest | neontestdb.go:51 | test `TestFoo` on host `h1` gets branch `h1.TestFoo` |
| Naming.TestBranchNameOfSubtest | neontestdb.go:51 | subtest `TestFoo/case1` on host `h1` gets branch `h1.TestFoo.case1` |
| Naming.TestBranchNameCollides | neontestdb.go:51 | a test name that contains `/` differs from its dotted form, yet both derive the same branch name |
| Naming.SubtestsCollide | neontestdb.go:51 | the distinct subtests `TestFoo/a.b` and `TestFoo/a/b` on host `h1` derive the same branch name |
| Wire.BranchesURL | neontestdb.go:149-151 | the collection URL is the API's projects prefix, the project identifier, then `/branches` |
| Wire.BranchURL | neontestdb.go:149-162 | a branch's URL is the branches collection URL, `/`, then the segment |
| Wire.BranchURLSegment | neontestdb.go:160-162 | the segment can be read back from a branch URL |
| Wire.BranchURLInjective | neontestdb.go:160-162 | distinct segments give distinct URLs |
| Wire.NewCreateBranchRequest | neontestdb.go:133-147 | a POST to the branches collection whose body carries the given name and parent and exactly one endpoint, of type `read_write` |
| Wire.Repeat | neontestdb.go:112-117 | k attempts send k copies of the same request |
| Retry.LoopBound | neontestdb.go:112 | attempt k runs exactly when k < 9,000,001, and the last attempt's delay is 100 ms |
| Retry.FirstUnlocked | neontestdb.go:112-123 | the first attempt not answered Locked, or the budget if every attempt was Locked |
| Retry.LockClears | neontestdb.go:119-127 | if locks clear at attempt m within the budget, attempt m decides |
| Retry.Delays | neontestdb.go:121 | the i-th sleep is 10 ms + 10 ns · i |
| Retry.DelaysIncrease | neontestdb.go:112-122 | sleeps start at 10 ms, grow by exactly 10 ns, and stay at or below 100 ms |
| Lifecycle.GetBranchOutcome | neontestdb.go:83-94 | absent exactly on 404; present exactly on 200 when the segment addresses a branch, and then it is that branch; other codes are fatal with the code |
| Lifecycle.ListOutcome | neontestdb.go:63-74 | nil exactly on 404; the whole listing exactly on 200; fatal otherwise |
| Lifecycle.ByNameOutcome | neontestdb.go:96-103 | on 200, the first branch with that name, or absent only when no branch has it; a 404 listing is a nil dereference |
| Lifecycle.DeleteRun | neontestdb.go:153-158 | one DELETE to the branch URL; success exactly on 200, and then the branches the segment addresses are gone and no other; on failure the registry is unchanged |
| Lifecycle.AttemptsRun | neontestdb.go:111-130 | between 1 and 9,000,001 copies of the same POST; the sleeps are `Delays` (10 ms, then 10 ns more each) and every attempt that slept was answered Locked; unless it gives up, the last attempt did not sleep; on success the new branch, named and parented as asked, is appended and 200 or 201 answered the last attempt; giving up exactly when all 9,000,001 attempts slept; a failure changes nothing |
| Lifecycle.CreateRun | neontestdb.go:105-131 | the listing GET first; on success the new branch has the given identifier and name, its parent is the first branch named as the configured parent, and it is appended; a failure changes nothing |
| Lifecycle.ClearStale | neontestdb.go:77-79 | a GET of the name, then a DELETE of the name exactly when the GET answered 200 and the name addresses a branch; it succeeds exactly on a 404, or on a 200 for an addressed branch followed by a 200 DELETE; any other GET code is fatal with that code and changes nothing; no branch is added, and every branch the name does not address stays |
| Lifecycle.ForcedCreateRun | neontestdb.go:76-81 | starts with the GET of the name; on success the new branch has the name and the service's identifier and is listed last, every other branch was there before, and every earlier branch the name does not address stays; a failure adds no branch; a fatal GET or DELETE ends the run there, with no listing GET, no POST and no sleep |
| Lifecycle.UsingBranchRun | neontestdb.go:55-61 | the callback gets at most one URI, URI 0, and gets it exactly when force-create succeeded with a non-empty URI list; with NoCleanup the registry is the one force-create left; without it a success ends with a DELETE by the new branch's identifier, adds no branch, and keeps every earlier branch addressed by neither the name nor the new identifier |
| Lifecycle.CreateNeedsParent | neontestdb.go:105-109 | with no branch named as the parent, CreateBranch fails after the listing request alone and sends no POST |
| Lifecycle.AttemptDecides | neontestdb.go:119-127 | when every attempt before k was Locked and attempt k was not, k + 1 POSTs were sent after k sleeps; 200 or 201 there appends the new branch and succeeds, any other code is fatal with that code and changes nothing |
| Lifecycle.AttemptsExhausted | neontestdb.go:112-130 | when every one of the 9,000,001 attempts is Locked, the loop gives up after that many POSTs and sleeps, with the registry unchanged |
| Lifecycle.CreateAttempts | neontestdb.go:111-139 | each POST names the branch, carries the parent's identifier and asks for one `read_write` endpoint; every attempt before the last was Locked; at most 9,000,001 attempts; unless it gives up, the last attempt was not Locked; it succeeds exactly when the last attempt was answered 200 or 201; giving up happens exactly when every attempt was Locked |
| Lifecycle.ClearStaleFreesName | neontestdb.go:76-79 | after the GET/DELETE phase succeeds, no branch answers to the name; the phase adds no branch |
| Lifecycle.ClearStaleDeletesByName | neontestdb.go:76-79 | a DELETE keyed by the name is sent exactly when GET finds a branch; otherwise nothing changes |
| Lifecycle.ForcedCreateLeavesOne | neontestdb.go:76-81 | on success there is exactly one branch of the name, the new one, last in the listing; its parent is a pre-existing branch of the configured parent name |
| Lifecycle.ForcedCreateTwice | neontestdb.go:76-81 | a branch left by a run that did not clean up is found by name and deleted by the next force-create, which again leaves exactly one |
| Lifecycle.UsingBranchTwice | neontestdb.go:55-61 | the test's two runs in a row with cleanup on: the second run's GET answers 404 and deletes nothing, and afterwards nothing answers to the name |
| Lifecycle.UsingBranchCleansUp | neontestdb.go:55-61 | without NoCleanup, success means the callback got URI 0 once and nothing answers to the name any more |
| Lifecycle.UsingBranchDeletesById | neontestdb.go:58-59 | without NoCleanup, the last request deletes the new branch by its identifier, and success needs a 200 |
| Lifecycle.UsingBranchKeeps | neontestdb.go:55-61 | with NoCleanup, the registry and the requests are those force-create left, and the branch is still found by name |
| NeonTestDb.FindByName | neontestdb.go:97-102 | the scan returns the first branch of that name, or absent exactly when none has it |
| NeonTestDb.Getenv | neontestdb.go:35 | an unset variable reads as the empty string |
| NeonTestDb.Client.constructor | neontestdb.go:19-25 | the client holds the credentials, parent branch name and cleanup flag it is given |
| NeonTestDb.Package.constructor | neontestdb.go:27 | the default parent branch starts as `main` |
| NeonTestDb.Package.SetDefaultBranch | neontestdb.go:29-31 | overwrites the default parent branch |
| NeonTestDb.Package.LoadClient | neontestdb.go:33-46 | fails on a missing `NEON_API_KEY`, then on a missing `NEON_PROJECT_ID`; otherwise the client takes both and the current default branch |
| NeonTestDb.Client.GetBranches | neontestdb.go:63-74 | one GET to the collection, the registry unchanged, the result as `ListOutcome` |
| NeonTestDb.Client.GetBranch | neontestdb.go:83-94 | one GET to the branch URL, the registry unchanged, the result as `GetBranchOutcome` |
| NeonTestDb.Client.GetBranchByName | neontestdb.go:96-103 | one GET to the collection, the registry unchanged, the result as `ByNameOutcome` |
| NeonTestDb.Client.CreateBranch | neontestdb.go:105-131 | outcome, registry, requests and sleeps exactly as `CreateRun` |
| NeonTestDb.Client.PostUntilUnlocked | neontestdb.go:111-130 | the retry loop: outcome, registry, requests and sleeps exactly as `AttemptsRun` |
| NeonTestDb.Client.DeleteBranch | neontestdb.go:153-158 | one DELETE to the branch URL; the registry as `DeleteRun` |
| NeonTestDb.Client.ForcedCreateBranch | neontestdb.go:76-81 | outcome, registry, requests and sleeps exactly as `ForcedCreateRun` |
| NeonTestDb.Client.UsingBranch | neontestdb.go:55-61 | outcome, registry, requests, sleeps and callback inputs exactly as `UsingBranchRun`; the callback runs after a successful force-create and before the cleanup DELETE, seeing the registry force-create left (with the new branch in it) |
| NeonTestDb.Client.UsingTestBranch | neontestdb.go:49-53 | `UsingBranch` under the derived test branch name, including when the callback runs |

## Left out

- HTTP transport (`Do`, request headers, the API key as a bearer token, `context`, closing response bodies): network I/O. A request is its verb, URL and body, and the answer is a status code given as a parameter. A transport error, which is fatal in the source, is not modelled.
- URL parsing in `NewRequest` (lines 164-168) is not modelled. `BranchURL` puts the name into the path unescaped, and the model takes the whole name as the path segment the service sees. In the code, a `#` or `?` in the name ends the path there, and a `%` not followed by two hex digits makes `NewRequest` fail fatally. A repeated subtest such as `TestFoo/case#01` thus has its GET and DELETE sent to the branch of `TestFoo/case`.
- Lifecycle.ClearStaleFreesName: holds only for names the URL carries whole (no `#`, `?` or `%`), because the path is not escaped.
- Lifecycle.ClearStaleDeletesByName: holds only for names the URL carries whole (no `#`, `?` or `%`), because the path is not escaped.
- Lifecycle.ForcedCreateLeavesOne: holds only for names the URL carries whole (no `#`, `?` or `%`); for other names the GET and DELETE address a different branch.
- Lifecycle.ForcedCreateTwice: holds only for names the URL carries whole (no `#`, `?` or `%`), because the path is not escaped.
- Lifecycle.UsingBranchCleansUp: holds only for names the URL carries whole (no `#`, `?` or `%`), because the path is not escaped.
- Lifecycle.UsingBranchTwice: holds only for names the URL carries whole (no `#`, `?` or `%`), because the path is not escaped.
- Lifecycle.UsingBranchKeeps: holds only for names the URL carries whole (no `#`, `?` or `%`), because the path is not escaped.
- JSON encoding and decoding (`json.Marshal`, `parseResponse`): library serialisation. The only decode failure modelled is a 200 for a branch that does not exist (`Undecodable`). The large response structs keep only a branch's identifier, name and parent identifier, and a create's connection URIs.
- `log.Fatalf`, `logFatalResponse` and `getCallerName`: these terminate the process and format messages. They become `Fatal(failure)`, which carries the reason but not the message text.
- `time.Now`, `time.Since` and the elapsed time in the give-up message: clocks. `time.Sleep` is recorded on `Clock` as a duration in nanoseconds.
- `os.Getenv` and `os.Hostname`: environment access. The environment is a `map` parameter of `LoadClient`, and the host name is a parameter of `UsingTestBranch`. An error from `os.Hostname` is ignored in the source and is not modelled.
- The callback's own behaviour (including a panic inside it) and any test-framework interaction: the callback only records the URI it is given and the branches the project had at that moment.
- The remote service's semantics are assumed, not taken from code: addressing by identifier or name, deleting every addressed branch, and appending on create.
- ForcedCreateLeavesOne: holds only when the GET of the name answers truthfully (`Truthful`); a service that answers 404 for an existing branch would leave two.
- ForcedCreateTwice: assumes both force-creates' GETs answer truthfully, as ForcedCreateLeavesOne does.
- ClearStaleFreesName: assumes the GET answers truthfully, as ForcedCreateLeavesOne does.
- ClearStaleDeletesByName: assumes the GET answers truthfully, as ForcedCreateLeavesOne does.
- UsingBranchCleansUp: assumes the GET answers truthfully, as ForcedCreateLeavesOne does.
- UsingBranchKeeps: assumes the GET answers truthfully, as ForcedCreateLeavesOne does.
- UsingBranchTwice: assumes both runs' GETs answer truthfully, as ForcedCreateLeavesOne does.
- NeonTestDb.Client.PostUntilUnlocked: this is the body of `CreateBranch`'s loop (lines 111-130) as a method of its own; it has no counterpart function in the source.
- Deferred `resp.Body.Close()` calls inside the loop, which pile up until `CreateBranch` returns: resource handling with no effect on the outcome.
- The integration test `neontestdb_test.go` runs against the live service and is not modelled. Its loop of two `UsingTestBranch` calls (lines 18-19) is stated as `UsingBranchTwice`.
