# Static-site generator orchestration, modelled in Dafny

This project models the core of an Aurelia static-site generator. `generate.js` builds a
server-side-render bundle, starts it as a render server, polls the server's port until it
accepts a connection, fetches every route of the application's route table from it, writes
each page to a file, and finally sends the server `SIGHUP`. Pages of plain route groups land
in `./dist`. Because of the prefix defect described below, the request for a page of an object
group goes to `http://localhost:8084undefined/<alias>`, which names no port of the render
server, and its write targets `./distundefined/<alias>.html`, a directory the build never
creates. Either failure fails that page's job, so `getPages` rejects and the server is never
signalled (`FailedJobStrandsServer`). The model also covers the two
configuration helpers `ensureArray` and `when` from `webpack.server.config.js`, and the
`plugins` array that spreads their results.

Everything is pure: immutable datatypes and functions over them, with lemmas that relate them.

| file | module | models |
|---|---|---|
| `results.dfy` | `Results` | `Result`, standing for a resolved or rejected promise and for a thrown error |
| `js_value.dfy` | `JsValue` | the JavaScript values the helpers see, truthiness, and `&&`, `\|\|`, `!` |
| `config_helpers.dfy` | `ConfigHelpers` | `ensureArray`, `when`, array-literal spreading and the `plugins` list |
| `routes.dfy` | `Routes` | the `reduce` of `getPages`, the `NotFound` deletion, and output file naming |
| `readiness.dfy` | `Readiness` | `waitForServer`, as a function of how each connection attempt ends |
| `build.dfy` | `Build` | the `close` rule of `build` |
| `pages.dfy` | `Pages` | the `Promise.map` fan-out of `getPages`, and the log of file writes it makes |
| `orchestrator.dfy` | `Orchestrator` | the top-level `async` run as a state machine |

How the model reads the code:

- **The route table** is a sequence of `(name, group)` pairs in key order. A group is `Plain(entries)`
  or `Prefixed(prefix, config)`. An entry's `route` is a `Segment` or a list of `Aliases`.
- **The prefix defect.** Line 79 reads `router.prefix` while `router` still holds the group's
  name. A string has no `prefix` property, so every page of an object group gets the path
  `undefined/<alias>`, whatever its `prefix` says. `PrefixIsIgnored` states this, and
  `PrefixedPagesLeaveDist` gives the resulting request URL and write target.
- **Malformed groups.** An object group whose `prefix` is empty is falsy at line 78. It takes
  the plain branch, and there `.map` is not a function. The model gives `Err(NotAList(name))`,
  and that rejects `getPages`. An empty alias list renders as `undefined`.
- **Build close codes.** The close code is a JavaScript value. `null` is what a process ended
  by a signal reports, and it resolves the build just as `0` does.
- **The probe.** It is a function of the attempt outcomes `Connected | Errored | TimedOut`. Its
  promise is never rejected, so the model has no failure state for it.
- **Page jobs.** Each fetch-then-write job is an opaque outcome, `job(i)` for page `i`.
  `GetPages` is the aggregate that `await` sees. `WriteLog` is the writes the jobs make, in
  page order: bluebird cancels nothing, so a failed job does not stop its siblings from writing.
  Two pages with the same file name give two log entries for one file.
- **The run.** A `Step` function moves through `Building → Starting → Waiting → Generating →
  ShuttingDown → Done`, or to `Failed(cause)`. It is driven by how each awaited step settles.

Where the code's evident intent and what it does come apart, the model follows what it does:

- The `prefix` variable of an object group is evidently meant to lead each of its paths, as
  `<prefix>/<alias>`. The code renders `undefined/<alias>` instead.
- Output file names look meant to be one per page. They are not: the alias `""` and the alias
  `"main"` both give `./dist/main.html` (`OutputPathCollisions`, `DistFileCollisions`,
  `RootAndMainCollide`). Duplicate first aliases also collide.
- The final `SIGHUP` looks meant to stop the render server once generation is over. In the code
  a single failed fetch or write rejects `getPages`, the `await` throws, and the signal is
  never sent (`FailedJobStrandsServer`).
- A route written as `"/"` is requested as `//` and written to `./dist//.html`
  (`SlashRouteIsNotRoot`). The root page comes only from the alias `""`.

## Model

| member | source | states |
|---|---|---|
| ConfigHelpers.EnsureArray | webpack.server.config.js:16-17 | always an array: `[]` for a falsy input, the input itself for an array, `[input]` for any other truthy value |
| ConfigHelpers.When | webpack.server.config.js:18-19 | always an array, holding what `ensureArray` makes of `config` when the condition is truthy and of `negativeConfig` otherwise, case by case |
| ConfigHelpers.WhenWithoutNegativeIsEmpty | webpack.server.config.js:18-19 | with the negative config omitted, a falsy condition yields the empty array |
| ConfigHelpers.SpreadWhenNeverFails | webpack.server.config.js:16-19 | spreading a `when` result never throws, and adds exactly the chosen config's entries (none, the array's elements, or the single value) |
| ConfigHelpers.ArrayLiteralThrowsExactly | webpack.server.config.js:164-231 | an array literal such as `plugins` throws exactly when one of its spreads is not iterable, and the error names the first such spread, every earlier item having evaluated |
| ConfigHelpers.SpreadBarePluginThrows | webpack.server.config.js:165 | spreading a plugin object without `when` would throw a TypeError |
| ConfigHelpers.PluginItems | webpack.server.config.js:164-231 | the `plugins` literal has nine items, and every spread in it spreads an array |
| ConfigHelpers.SpreadWhenPlugin | webpack.server.config.js:165-230 | spreading `when(condition, plugin)` contributes exactly the plugin when the condition is truthy and nothing otherwise |
| ConfigHelpers.PluginsAlwaysBuild | webpack.server.config.js:164-231 | the plugin list builds for every flag setting and is exactly: the duplicate-package checker iff `karma` is falsy, the five fixed plugins, then CSS extraction, static copying and the bundle analyser each iff its flag holds |
| Routes.FirstAlias | generate.js:87-89 | the rendered route text is the segment itself, the first alias of a non-empty list, and `undefined` for an empty list |
| Routes.EntryPath | generate.js:77-89 | a plain group's entry path is `/` + rendered route; an object group's is `undefined/` + rendered route, whatever its `prefix` |
| Routes.Flatten | generate.js:74-93 | the reduce succeeds exactly when every group is well formed; otherwise it fails naming the first malformed group |
| Routes.FlattenCount | generate.js:75-93 | one page per route entry of every group, with no deduplication |
| Routes.FlattenAt | generate.js:75-93 | entry `j` of group `i` is the page at position (entries of earlier groups) + `j`: group order, then list order, with path prefix text, `/`, first alias |
| Routes.PrefixIsIgnored | generate.js:77-89 | an object group's `prefix` never reaches its pages: any two truthy prefixes give the same pages, each path beginning `undefined/` |
| Routes.PlainGroupPath | generate.js:82-89 | a plain group's page path is `/` + first alias, so the alias `""` gives `/` |
| Routes.LaterAliasesIgnored | generate.js:87-89 | only the first alias matters; a one-segment route behaves like an alias list starting with it |
| Routes.RemoveNotFound | generate.js:110-111 | no remaining group is named `NotFound`; a table without `NotFound` is unchanged |
| Routes.RemoveNotFoundKeepsOthers | generate.js:110-111 | every group other than `NotFound` survives the deletion, and nothing is added |
| Routes.RemoveNotFoundWellFormed | generate.js:110-111 | after the deletion the table is well formed exactly when every group other than `NotFound` is |
| Routes.Generate | generate.js:74-111 | generation fails exactly when a group other than `NotFound` is malformed, and otherwise yields one page per entry of the other groups |
| Routes.NotFoundContributesNothing | generate.js:110-116 | inserting a `NotFound` group anywhere, even a malformed one, changes no generated page |
| Routes.OutputPath | generate.js:95-96 | the root path `/` is renamed `/main.html` |
| Routes.OutputPathShape | generate.js:95-99 | every output name ends in `.html`; for any path but `/` the path is recovered by dropping that suffix |
| Routes.DistFile | generate.js:95-102 | the root path is written to `./dist/main.html`; any other path to `./dist` + path + `.html` |
| Routes.OutputPathCollisions | generate.js:95-99 | two different paths share an output name, as a string, exactly when they are `/` and `/main` |
| Routes.DistFileCollisions | generate.js:95-102 | two different paths get the same file name, as a string, exactly when they are `/` and `/main` (on disk, paths that differ only in runs of `/` also reach one file) |
| Routes.PrefixedPagesLeaveDist | generate.js:11-102 | an object group's entry is requested at the URL text `http://localhost:8084undefined/<alias>`, and its write targets `./distundefined/<alias>.html` |
| Routes.RootAndMainCollide | generate.js:87-102 | the aliases `""` and `"main"` are both written to `./dist/main.html` |
| Readiness.Probe | generate.js:46-72 | pending exactly while no attempt has connected; otherwise resolved by the first connecting attempt, every earlier attempt having failed |
| Readiness.ProbeShiftsPastFailures | generate.js:57-65 | each error or timeout costs exactly one attempt and resolves nothing; later attempts are probed as if from the start |
| Readiness.ProbeFindsLateServer | generate.js:48-66 | after any number `N` of failed attempts, a listening server is found on attempt `N + 1`: the retries have no bound |
| Readiness.ProbeIgnoresLaterAttempts | generate.js:51-54 | once resolved, later attempt outcomes change nothing |
| Readiness.ErrorAndTimeoutAlike | generate.js:57-65 | an error and a timeout are handled identically |
| Build.BuildSettles | generate.js:23-29 | the build resolves exactly when the close code is falsy, and otherwise rejects carrying that code |
| Build.BuildExitCodes | generate.js:24-28 | a numeric exit status resolves only when it is 0; `null` (signal) and `undefined` resolve |
| Pages.SettleAll | generate.js:94-104 | the aggregate resolves exactly when every job wrote, one entry per job in page order (the body that job wrote); otherwise it rejects |
| Pages.GetPages | generate.js:74-105 | a malformed table rejects with its route error; a well-formed one resolves exactly when every job writes, and then records for page `i` its file name and the body written there |
| Pages.WriteLog | generate.js:94-104 | a malformed table writes nothing; otherwise the log holds a write for every job that wrote, and no write that no job made |
| Pages.WrittenFilesContents | generate.js:100-103 | the writes of the first `n` jobs include every job that wrote and nothing else |
| Pages.AllWrittenLog | generate.js:100-103 | when every job writes, the log is one write per page, in page order |
| Pages.WriteLogAgreesWithGetPages | generate.js:94-104 | on success the write log equals what `getPages` resolved with; on a job failure every successful sibling has still written its file |
| Pages.GetPagesWhenAllWrite | generate.js:94-104 | when every job writes, `getPages` resolves with one file per page in page order |
| Pages.TwoRouteSite | generate.js:74-105 | routes `""` and `"about"` produce `./dist/main.html` and `./dist/about.html` with the fetched bodies |
| Pages.SlashRouteIsNotRoot | generate.js:87-102 | a route written `"/"` is written to `./dist//.html`, not `main.html` |
| Orchestrator.Step | generate.js:107-118 | a transition never moves backwards; it stays put only at an end or while the probe is pending; it fails only at the build or at `getPages`; `Done` comes only after the shutdown |
| Orchestrator.RunFrom | generate.js:107-119 | a run starts where it was started, has at most `6 - Rank(p)` phases, and has fewer effects than phases |
| Orchestrator.RunFollowsStep | generate.js:107-119 | a run follows the state machine, only moves forward through the phases, and stops only where no step is possible |
| Orchestrator.RunWhenBuildRejects | generate.js:107-108 | a rejected build ends the run at once, with no server spawned |
| Orchestrator.RunWhenProbePending | generate.js:112-113 | while the probe never connects, the run stays waiting with the server spawned and `getPages` never called |
| Orchestrator.RunWhenPagesReject | generate.js:112-118 | a rejected `getPages` ends the run failed, after spawning the server and calling `getPages` but without `SIGHUP` |
| Orchestrator.RunWhenAllResolve | generate.js:107-119 | when every awaited step resolves, the run spawns the server, calls `getPages`, sends `SIGHUP` and is done |
| Orchestrator.RunSequencing | generate.js:107-119 | spawn iff the build resolved; `getPages` called iff the probe resolved as well; `SIGHUP` iff `getPages` resolved as well; effects in that order; `Done` iff `SIGHUP` |
| Orchestrator.FailedJobStrandsServer | generate.js:94-118 | one failed job leaves the server spawned and never signalled, while the successful jobs' writes are still in the log |

## Left out

- Process spawning, forwarding of stdout and stderr, and signal delivery (generate.js:14-21, 33-43, 118): OS process I/O. The model keeps only the build's close code and whether `SIGHUP` is sent.
- Sockets, `setTimeout`, and the 300 ms delay and timeout (generate.js:49-66): timers and the network. Each attempt is one outcome.
- The race in which a timed-out socket connects later and calls `resolve` a second time: timer and concurrency behaviour.
- Readiness.Probe: after a timeout, ending the socket does not abort a connect still in flight, so an attempt that times out and later errors calls `check` a second time and starts a second chain of attempts. The model has one chain with one outcome per attempt, and does not model the extra attempts a second chain makes.
- HTTP requests through `request-promise` and `fs.writeFile` (generate.js:90, 102): foreign I/O. Each fetch-then-write is one opaque `JobOutcome`.
- The requests that the `reduce` starts for earlier groups before a later, malformed group throws (generate.js:90): their responses are never written, so only the rejection is modelled.
- The order in which concurrent jobs finish under `Promise.map`. `WriteLog` lists writes in page order. Which of two colliding writes lands last is not modelled.
- SettleAll: the source's `Promise.map` resolves with the array of `writeFile` results, which are all `undefined` and are discarded at generate.js:116. The model carries each written body instead, so the resolved value can be compared with the write log.
- GetPages: a job failure rejects with `JobFailure`, without the failing job's own error, because which job's error bluebird reports depends on completion order.
- The ordering `Object.keys` gives to integer-like keys: the route table is taken in the order it is enumerated.
- A `route` field that is neither a string nor an array of strings. A `null` or missing one throws at generate.js:88 when index 0 is read; a number, boolean or plain object reads `undefined` at index 0 and renders as `undefined`, as an empty alias list does. `RouteSpec` carries only strings and string lists.
- Whether the request or the write of a page actually succeeds: it is the opaque `JobOutcome`. In particular the model does not derive that the URL `http://localhost:8084undefined/<alias>` reaches no server, or that writing under a missing `./distundefined` directory fails (`fs.writeFile` creates no directories); it states the URL and target and leaves the outcome to `job`.
- Steps that never settle: the model assumes the build's `close` event fires and every page job eventually settles. In the source the run also waits for ever at generate.js:108 if `close` never fires, and at generate.js:116 if a request hangs (no timeout is set on it); the server then stays up and is never signalled.
- The contents of `./src/routes`: they are not part of this model, so the table is an input.
- JavaScript numbers are integers here; fractions and `-0` are not modelled (`NaN` is).
- Iterable objects other than arrays and strings: plugin instances are not iterable, and nothing else is spread.
- The plugins' constructor arguments, the loaders, externals and the rest of `webpack.server.config.js`: declarative bundler configuration over libraries outside this model.
- `server.js` and `package-scripts.js`: Koa middleware wiring and npm script strings.
- `console.log` calls, including `console.log(Routes)` at generate.js:121, and the unused `notFound` binding at generate.js:110: output only.
- WriteLogAgreesWithGetPages and FailedJobStrandsServer: the claim that every successful sibling job still writes assumes the process lives on after the run's rejection. On Node 15 and later an unhandled rejection ends the process, so writes still in flight may never happen; the process lifetime is outside the model.
