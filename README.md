# rls (git-release) in Dafny

`rls` lets a user classify the commits of a git log as major, minor or patch
changes, renders them into release notes, and publishes a release on GitHub.
This project models the logic behind the command line and proves what it
does:

- **Release reconciliation** (`rls.go`, module `Rls`). `RLS.CreateRelease`
  chooses between four paths. A draft is created directly. Otherwise the
  release is looked up by tag. A found release is reused, or, with
  `recreate`, deleted together with its tag, and after a 5-second wait it is
  created again. `RLS` is a class whose `GitHub` field is a scripted fake,
  `FakeGitHub`. The fake answers each call with the outcome its `Script`
  fixes and appends the call to the trace of a `World` object. The sleep is
  recorded in the same trace, so the order of calls can be stated and proved.
  The function `Reconcile` specifies the method. The lemmas beside it state
  the branching, the exact call sequences and the failure cases.
- **Error identity.** Go's `==` on two `error` interfaces holding pointers
  compares the pointers. The model gives every error the identity of its
  allocation (`GoErrors.Error.id`), and `World.Alloc` hands out new
  identities from a counter that only grows. rls.go:32 compares the lookup
  error with a `fmt.Errorf` value allocated for that comparison. A scripted
  error exists before the call, so its identity lies below the counter: the
  `FakeGitHub` constructor demands this of its script (`FakeGitHub.Valid`),
  and every `RLS` method keeps it. Under that condition every lookup error,
  the `RelaseNotFound` sentinel included, is reported as "failed to get
  release", and the not-found path at rls.go:35-42 is dead. `RLS.CreateRelease`
  states this for the method itself; `LookupErrorIsFatal`,
  `NotFoundPathNeedsProbeIdentity` and `NotFoundFromServiceIsFatal` state it
  for `Reconcile`.
- **Response classification** (`github.go`, module `GitHub`). Each client
  operation is a function. It takes the go-github reply, which is a value,
  an optional response and an optional error. It returns the request it
  issued and its classified outcome: the value, a failure, or the
  `RelaseNotFound` sentinel. The status codes are 201 Created (section
  15.3.2 of RFC 9110), 204 No Content (section 15.3.5) and 404 Not Found
  (section 15.5.5). `NewGitHubClient` runs its checks in order.
- **CLI helpers** (`cli.go`, module `Cli`). These are the exit-code
  constants, `formatString` over bytes, and the loop of `inquired`. In that
  loop the prompt's answers are an input sequence.

## Where the code and its own comments disagree

The model follows the code in each case:

- The comment at rls.go:28-29 says "If release is not found, then create a
  new release". In the code, every lookup error fails (rls.go:32, see above).
- github.go:39-41 returns "missing GitHub repository name", so it means to
  reject an empty repository name. But the test there checks the owner again,
  so an empty `repo` is accepted (`GitHub.EmptyRepoAccepted`).
- The comments in cli.go:37-46 give the exit codes as 10..14. Because
  `ExitCodeOK` is the block's spec 0, `10 + iota` gives 11..15
  (`Cli.ExitCodeValues`).

## Other quirks of the code

- `formatString` upper-cases `string(b[0])`. That string is the UTF-8
  encoding of the code point `b[0]`, two bytes when `b[0] >= 0x80`. So a
  stripped message shorter than 33 bytes keeps its length only when its
  first byte is ASCII (`Cli.FormatString`, `Cli.NonAsciiFirstByte`); one of
  33 bytes or more is cut to 33 bytes whatever its first byte.
- The `GitHub` interface (github.go:20-25) has no `GetCommits`, but
  `RLS.GetCommits` (rls.go:83-85) calls one on it. The fake gateway offers it.

## Model

| member | source | states |
|---|---|---|
| `Rls.Reconcile` | rls.go:19-60 | every run makes at least one call; a draft starts with `CreateRelease(req)` and any other request starts with `GetRelease(req.TagName)`; no create precedes the last event; a final create is `CreateRelease(req)` and its outcome is the result |
| `Rls.Teardown` | rls.go:63-80 | the release is deleted first; success exactly when both deletions succeed, and then the steps are delete release, delete tag, sleep 5 s; a failure is the first failing call's error, returned unwrapped, and no sleep follows it; a failed release deletion is the only step, and a failed tag deletion is the second and last; no create call |
| `Rls.RLS.CreateRelease` | rls.go:19-60 | the calls added to the trace, the lines written, the errors allocated and the result are those of `Reconcile` for the gateway's script; the gateway stays valid; when its scripted errors predate the call, a lookup error ends the method after the lookup alone, with nothing written and the error wrapped as "failed to get release" |
| `Rls.RLS.DeleteRelease` | rls.go:63-80 | the calls added to the trace and the returned error are those of `Teardown`; nothing is allocated; the gateway stays valid |
| `Rls.RLS.GetCommits` | rls.go:83-85 | forwards: one `GetCommits(opts)` call, and the gateway's result returned as is; nothing is allocated |
| `Rls.RLS.Write` | rls.go:24 | `Fprintln`/`Fprintf` to the output stream (also lines 36-38, 41, 47-48, 54): the line is appended and nothing earlier changes |
| `Rls.World.constructor` | github.go:14-16 | the program starts with an empty trace and with identity 0 taken by `RelaseNotFound`, so the next allocation is 1 |
| `Rls.World.Alloc` | rls.go:32 | a new error takes the counter's identity and the counter moves past it, so no later allocation repeats it; the trace is unchanged |
| `Rls.World.Sleep` | rls.go:77 | the sleep appears in the trace with its duration and changes nothing else |
| `Rls.FakeGitHub.CreateRelease` | github.go:21 | records `CreateRelease(req)` and returns the scripted outcome |
| `Rls.FakeGitHub.GetRelease` | github.go:22 | records `GetRelease(tag)` and returns the scripted outcome |
| `Rls.FakeGitHub.DeleteRelease` | github.go:23 | records `DeleteRelease(id)` and returns the scripted error |
| `Rls.FakeGitHub.DeleteTag` | github.go:24 | records `DeleteTag(tag)` and returns the scripted error |
| `Rls.FakeGitHub.GetCommits` | rls.go:84 | records `GetCommits(opts)` and returns the scripted outcome |
| `Rls.FakeGitHub.constructor` | github.go:20-25 | a gateway is built only over a script whose errors were all allocated before the world's counter, and it starts valid |
| `Rls.CreateAtMostOnce` | rls.go:19-60 | on every path `CreateRelease` is called at most once; when it is called it is the last step and its outcome is returned verbatim |
| `Rls.DraftCreatesDirectly` | rls.go:23-26 | a draft makes exactly one call, `CreateRelease(req)`, never looks up or deletes, and returns the create outcome verbatim |
| `Rls.NotFoundPathNeedsProbeIdentity` | rls.go:31-43 | after a lookup error, `CreateRelease` is called if and only if that error has the identity allocated for the comparison at line 32 |
| `Rls.LookupErrorIsFatal` | rls.go:30-33 | if the lookup error existed before the call (as every real error did), the run is the lookup alone; the error is wrapped as "failed to get release" and nothing is written, created or deleted |
| `Rls.NotFoundFromServiceIsFatal` | rls.go:30-42 | a 404 lookup reaches the reconciler as `RelaseNotFound`; the run still fails with "failed to get release: release is not found", creates nothing and never writes the recreate warning |
| `Rls.FoundReleaseReused` | rls.go:46-50 | a found release without `recreate` is returned unchanged after the lookup alone, with the reuse warning |
| `Rls.RecreateSequence` | rls.go:54-59 | with `recreate` and both deletions succeeding, the calls are `GetRelease(tag)`, `DeleteRelease(found.ID)`, `DeleteTag(tag)`, sleep 5 s, `CreateRelease(req)`, and the create outcome is the result |
| `Rls.DeleteReleaseFailureStops` | rls.go:55-57 | a failed release deletion is returned unwrapped; no tag deletion, sleep or create follows |
| `Rls.DeleteTagFailureStops` | rls.go:70-73 | a failed tag deletion after a successful release deletion is returned unwrapped; no sleep or create follows |
| `Rls.CreateOnlyAfterTeardown` | rls.go:54-79 | a run that deletes and creates has both deletions succeed first, and the create comes right after the 5 s sleep |
| `GoErrors.Same` | rls.go:32 | Go's `!=` on two error interfaces: an error equals itself, and errors from two different allocations are never equal, whatever they print |
| `GoErrors.Text` | rls.go:33 | `err.Error()`: an error's text starts with its own message, followed for a wrapper by the text of its cause |
| `GoErrors.New` | rls.go:32 | the new error prints as its message and wraps nothing |
| `GoErrors.Wrap` | rls.go:33 | the wrapper keeps its cause and prints as `msg: cause` |
| `GitHub.NewGitHubClient` | github.go:34-69 | succeeds exactly for a non-empty owner, token and URL that parses, and the client then carries the given owner, repo, token and parsed URL; the failures come in order (owner, token, URL, parse); the "missing repository name" error is never produced |
| `GitHub.EmptyRepoAccepted` | github.go:39-41 | an empty repository name is accepted |
| `GitHub.CreateRelease` | github.go:72-84 | sends the release to owner/repo; succeeds exactly when there is no error and the status is 201, with the returned release; a library error is wrapped as "failed to create a release", and a wrong status is reported with its status line |
| `GitHub.GetRelease` | github.go:87-104 | succeeds exactly when there is no error, with no status check; returns exactly the sentinel when the error's response is 404, and a failure compares equal to the sentinel (`==`) exactly then, since every wrapper is a later allocation; otherwise wraps the library error as a transport failure (no response) or an invalid-status failure |
| `GitHub.DeleteRelease` | github.go:107-118 | targets the release id in owner/repo; succeeds exactly when there is no error and the status is 204 |
| `GitHub.TagRef` | github.go:122 | the ref is `tags/` followed by the tag |
| `GitHub.DeleteTag` | github.go:121-133 | deletes exactly the ref `tags/<tag>` in owner/repo; succeeds exactly when there is no error and the status is 204; the error message names the ref |
| `GitHub.GetCommits` | github.go:136-151 | succeeds exactly when there is no error; a 404 yields the release sentinel, and only then does a failure compare equal to it; every other error is wrapped |
| `GitHub.CommitsClassifiedLikeReleases` | github.go:136-151 | for the same response and error, `GetCommits` and `GetRelease` agree on success and on the sentinel |
| `Cli.ExitCodeValues` | cli.go:31-47 | `ExitCodeOK` is 0 and the five error codes are 11..15, pairwise distinct |
| `Cli.FirstIndex` | cli.go:274 | the index of the first occurrence, or the length when there is none; it locates the newline removed here and the first "End" answer of the loop at cli.go:265-267 |
| `Cli.ReplaceFirstNewline` | cli.go:274 | only the first newline is removed, wherever it is; the bytes before it are kept, and the bytes after it shift left by one |
| `Cli.UpperRune` | cli.go:276 | upper-casing keeps ASCII code points in ASCII and non-ASCII ones outside it, below U+0800 |
| `Cli.EncodeRune` | cli.go:276 | UTF-8 takes one byte below U+0080 and two bytes from there up to U+07FF |
| `Cli.UpperFirst` | cli.go:276 | `strings.ToUpper(string(b[0]))` is one byte for an ASCII `b[0]`, namely its ASCII capital, and two bytes otherwise |
| `Cli.FormatString` | cli.go:272-281 | the result never exceeds 33 bytes; a stripped message of 33 or more bytes gives its first 30 bytes, not capitalised, plus `...`; a shorter one with an ASCII first byte is itself with that byte capitalised, at the same length |
| `Cli.NothingLeftToFormat` | cli.go:274-276 | the stripped message is empty, so `b[0]` is out of range, exactly for `""` and `"\n"` |
| `Cli.NonAsciiFirstByte` | cli.go:276-280 | with a non-ASCII first byte, a short message grows by one byte, and a 32-byte message is cut |
| `Cli.Consumed` | cli.go:249-267 | the loop consumes no more commits than exist or have answers; no answer before the last consumed one is "End"; it stops early only right after an "End" |
| `Cli.Picked` | cli.go:256-264 | the list built from the first n answers holds at most n commits, each one of those n |
| `Cli.Inquired` | cli.go:247-270 | among the consumed commits, those answered 0, 1 and 2 become Majors, Minors and Patches, in log order; any other answer drops the commit; Ignore stays empty |
| `Cli.RoutedAtMostOnce` | cli.go:256-264 | Majors, Minors and Patches together hold no more commits than were consumed |
| `Cli.PickedExactly` | cli.go:256-264 | a commit is in the list for answer k if and only if some consumed commit equal to it was answered k |
| `Cli.PickedInLogOrder` | cli.go:256-264 | appending keeps log order: the list built from an earlier prefix of the log is a prefix of the later list |

## Left out

- `CLI.Run` (cli.go:92-239): flag parsing, `gitconfig` lookups, environment reads, opening the repository and walking its log, printing and exiting. It is I/O glue over libraries.
- `compile` and the `tpl` template (cli.go:68-87, 283-288): rendering and HTML escaping belong to `html/template`. The same goes for the colouring of `PrintRedf` / `PrintBluef` (cli.go:291-302) and `checkErr` (cli.go:241-245).
- `Cli.FormatString`: the panic on `""` and `"\n"` (cli.go:276 indexes `b[0]` of an empty slice) is excluded by its precondition rather than modelled as an outcome; `Cli.NothingLeftToFormat` states exactly which inputs these are.
- `prompt.Choose` (cli.go:255): the answers are an input sequence. If the answers run out before the log does, the loop stops, where the real prompt would wait for input. The prompt's question text (cli.go:254) is not modelled.
- `logs.Next()`: the log is a sequence. The loop also stops on an iterator error other than the end of the log, and the model treats that case as the end.
- The OAuth2 client setup (github.go:56-62) and the go-github HTTP calls. A call is replaced by the reply it returns, and an error it allocates gets an identity that the caller supplies.
- `url.ParseRequestURI` is a function parameter of `NewGitHubClient`.
- `time.Sleep` and `context`: the sleep is an event in the trace with no timing semantics, and cancellation is not modelled.
- `GitHub.CreateRelease`, `GitHub.DeleteRelease` and `GitHub.DeleteTag` require a response whenever the library reports no error. go-github always returns one in that case, and the code reads its status code without a nil check.
- Pointer fields of `github.RepositoryRelease` (`*req.Draft`, `*req.TagName`, `*release.ID`) are taken to be set. The nil-dereference panics are not modelled.
- The fake gateway returns one fixed outcome per operation. That is enough because each run calls each operation at most once.
- version.go: `ShowVersion` only prints the version string.
- Concurrency: the code has none.
