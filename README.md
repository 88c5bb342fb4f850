# go-healthserver: status aggregation and health report

A model of the two pieces of logic in the health server package:

- **Status aggregation** (`check` in `healthserver.go`). An endpoint's checks are
  invoked in order. The first check whose `Check()` returns a non-nil error makes
  the response status 503 Service Unavailable, and no later check is invoked. If no
  check fails, which includes an endpoint without checks, the status is 200 OK. A
  check is opaque: the `Check` datatype (the `Check` interface,
  healthserver.go:11-13) keeps the error its `Check()` returns (`None` for nil).
  The `Endpoint` datatype is the struct of healthserver.go:6-9, kept as data only:
  nothing in the model registers or serves endpoints. Every invocation of
  a check goes through `Invocations.Invoke`, which records the invoked index in a
  ghost log, so the order of invocations and the short-circuit are stated about
  the calls themselves. The response writer is a class that records every status
  passed to `WriteHeader`, so "exactly one status per request" can be stated.
- **Report rendering and template cache** (`templates.go`). The body of the report
  template maps an ordered list of `{Name, Err}` outcomes to table rows. `Render`
  models this at the level of row structure: the row class, the status glyph and
  the name cell. A row is `passing` exactly when `.Err` is false as a template
  condition (`{{if not .Err}}`): a nil error, and also a non-nil error whose
  dynamic value is an empty value (a nil pointer, a zero number, an empty string).
  `Error.emptyValue` carries that fact, so such an error fails the status check
  (`err != nil`) and still renders as passing. `getReportTemplate` is a class
  holding the package-level `reportTemplate` slot. Its method builds the template
  on the first call and returns the same cached object afterwards. The returned
  `*template.Template` is a `Template` object, so returning the same pointer is
  stated as reference equality. Each build goes through `BuildTemplate`, which counts
  builds in a ghost counter, so "without rebuilding" is stated about the builds
  themselves. The minifier and the
  template parser are opaque functions, fixed when the slot is created; the
  minifier is applied to the constant template text `ReportTemplateText`. A
  `Failure` result stands for the Go panic (`panic(err)` after minification,
  `template.Must` after parsing).

Modules: `Wrappers` (`Option`, `Result`), `HealthServer` (`healthserver.go`),
`Templates` (`templates.go`).

## Model

| member | source | states |
|---|---|---|
| HealthServer.FirstFailure | healthserver.go:27-32 | the index at which the loop stops: that check fails and every earlier check passes; with no index, every check passes |
| HealthServer.Status | healthserver.go:26-36 | the status is 200 or 503; it is 503 iff some check fails and 200 iff every check passes, which includes no checks |
| HealthServer.InvokedCount | healthserver.go:27-32 | the invoked checks form a prefix; all of them but the last pass; either every check was invoked or the last invoked one failed; with no failure every check is invoked |
| HealthServer.Invocations.Invoke | healthserver.go:28 | invoking check i appends i to the invocation log and returns the error that check's `Check()` returns |
| HealthServer.ResponseWriter.WriteHeader | healthserver.go:30-35 | each call appends its status to the recorded statuses |
| HealthServer.RunChecks | healthserver.go:26-36 | exactly one status is written, and it is `Status(checks)`; the invocations logged are of indices 0, 1, ... up to the first failure, in order, each once |
| HealthServer.FirstFailureAt | healthserver.go:28-31 | a failing check preceded only by passing ones is where the loop stops, with 503 after i + 1 invocations |
| HealthServer.FailureIgnoresLaterChecks | healthserver.go:27-32 | after a failing check, appended checks are never invoked, do not move the first failure and do not change the 503 |
| HealthServer.PassingPrefix | healthserver.go:27-35 | passing checks are each invoked and leave the status to the checks after them |
| HealthServer.TestedStatuses | healthserver_test.go:39-155 | the status codes the tests expect for [pass], [fail], [pass, fail], [pass, pass] and [pass, fail, pass], the last after two invocations |
| Templates.RenderRow | templates.go:40-42 | a row is `passing` with a check mark iff the outcome's `Err` is false as a template condition (nil, or a non-nil empty value), otherwise `failing` with a cross; the name cell is the outcome's name |
| Templates.Render | templates.go:38-45 | one row per outcome in the same order; each row's class, glyph and name are as for its own outcome; no outcomes give no rows |
| Templates.NilErrorPasses | templates.go:40-42 | an outcome with a nil `Err` gives a passing row with a check mark and its name |
| Templates.EmptyErrorValuePasses | templates.go:40-41 | a non-nil error with an empty dynamic value fails the status check yet renders as a passing row |
| Templates.RenderConsistent | templates.go:40-41 | every rendered row's class and glyph agree |
| Templates.ReadRender | templates.go:39-44 | reading the rows back gives exactly each outcome's name and pass/fail, in order |
| Templates.RenderDependsOnlyOnSummary | templates.go:39-44 | outcomes with equal names and equal template truth of `Err` render to identical rows |
| Templates.RenderConcat | templates.go:39-44 | rendering a concatenation is the concatenation of the renderings |
| Templates.BuildFrom | templates.go:59-68 | given the minification of the template text: a minification error, or else a parse error, aborts with that error; otherwise the template is the minified text parsed under its fixed name |
| Templates.ReportTemplateCache.constructor | templates.go:50 | the slot starts empty, with the given minifier and parser and no builds |
| Templates.ReportTemplateCache.BuildTemplate | templates.go:55-68 | one build: counted, and its result is `BuildFrom` of minifying the template text |
| Templates.ReportTemplateCache.GetReportTemplate | templates.go:52-72 | a cached template is returned as the same object, slot unchanged and no build; otherwise exactly one build runs, a failure is returned with nothing cached, and a success is stored in a new object that is cached and returned |

## Left out

- `HealthServer.Start` (healthserver.go:38-48): creating the HTTP multiplexer, registering handlers and listening are socket and HTTP plumbing. The `HealthServer` struct is therefore not modelled.
- Which endpoint each registered handler serves is not modelled. The closure in `Start` captures the shared loop variable (before Go 1.22). The route pattern `"health/" + name` also has no leading slash.
- The 404 answer for unregistered paths comes from the HTTP library, not from this package.
- The commented-out `AddCheck` is not code.
- Minification and template parsing are foreign libraries. They are opaque functions given to the template slot, so the model has no minified bytes, no rendered HTML text and no escaping of `Name`; `Render` gives the rows of the rendered table.
- Go's dynamic types are not modelled: whether a non-nil error's value is empty in the template's sense is the flag `Error.emptyValue`, not computed from a type.
- Executing a parsed template on outcomes is not a separate operation: its row structure is `Render`.
- `Templates.ReportTemplateCache.GetReportTemplate`: no concurrent callers. The Go slot is unguarded, so two first calls at once could both build the template.
- A panic is a `Failure` result. Nothing about recovering from it is modelled, except that nothing is cached.
- `RunChecks` calls each check's `Check()` through a fixed result. Side effects and panics of a check are not modelled, nor is a nil interface element in `checks`, whose call panics at healthserver.go:28 before any status is written: a `Check` value always has a result.
- Go's real `ResponseWriter` ignores a second `WriteHeader`. The model records every call instead, which is how "exactly one status" is stated.
