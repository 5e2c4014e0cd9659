# Active revision and diff resolver (phb) in Dafny

This project models the core of `phb`, a helper that tracks which Phabricator revision and
which diff of it are "active" for a working copy, and that creates a new revision with
`arc diff --create`. The core is the object `init` returns, which holds five operations:

- `getActiveRevision` and `setActiveRevision`. These pass through to the stored revision id.
- `getActiveDiff`. It reports the stored diff id only when a revision is set, a diff is set,
  and the diff is still listed by `readAllDiffs` for that revision. A stale id gives `null`.
- `setActiveDiff`. It stores a diff id verbatim.
- `createNewRevision`. It runs the arc tool, finds the revision id in its output, stores it,
  asks Conduit (`differential.query`) for that revision's diffs using the id without its
  `D`, and stores the last diff id. Each failure rejects with its own error kind.

The core exists twice: `src/basic.ts` and the older `src/basic.js`. The JavaScript version
overlays its options on defaults in which every collaborator is `async () => null`.

Modules:

- `Wrappers`: `Option` (for `null`/`undefined`), `Result` and `Outcome` (for rejections).
- `Js`: JavaScript truthiness of a string-or-null value. `null`, `undefined` and `''` are falsy.
- `RevisionUri`: the regex `/Revision URI.+\/+(D\d+)$/m`. It is modelled as a split into lines,
  a reference predicate `Matches` that spells out the regex's parts, and the computation
  `LineCapture`; they are proved equal. Also `stripDFromRevisionId`.
- `RevisionUriExamples`: the regex on the tests' tool output and on edge cases.
- `Conduit`: the reply envelope (`errorMessage`, `response`, `diffs`) and the validation that
  picks the newest diff id (`LatestDiff`).
- `ConduitExamples`: the Conduit mocks of both test suites, and replies at the edges of the validation.
- `Basic`: `src/basic.ts`. Class `Phb` holds the stored ids as fields and the file and arc
  collaborators as constants.
- `BasicJs`: `src/basic.js`. It has the options overlay (`WithDefaults`) and class `PhbJs`.

The persistence store is the two fields `revision` and `diff`. `readAllDiffs`, the arc
tool's output for a command, and Conduit's reply to a request are function-valued inputs
fixed when the object is built. Nothing in the model performs I/O.

Where the documentation and the code differ, the model follows the code:

- The two shape checks share one error message in the code (`src/basic.ts:88-96`), so the
  model has one error kind, `NoDiffIds`, for both.
- A "missing first record" can only mean an empty `response` in the code, because of the
  `response.length < 1` check.
- `readAllDiffs` returns a list of ids, as `src/types.ts:12` and the tests have it, not a
  string as the inline interface at `src/basic.ts:6` declares. So `includes` is list membership.
- In `src/basic.js` a missing `readAllDiffs` returns `null`, and `.includes` on `null` throws.
  `PhbJs.GetActiveDiff` models that as a failure.

## Model

| member | source | states |
|---|---|---|
| `RevisionUri.Lines` | src/basic.ts:64 | the output splits into at least one line, and no line holds a line terminator (LF, CR, U+2028, U+2029), which is how `.` and `$` behave under the `m` flag |
| `RevisionUri.LinesOfOneLine` | src/basic.ts:64 | text without a line terminator is a single line |
| `RevisionUri.LinesCons` | src/basic.ts:64 | a terminator after a terminator-free prefix ends the first line; the rest splits on its own |
| `RevisionUri.LineCapture` | src/basic.ts:64-68 | a capture found on a line has the shape `D` plus one or more digits and is the line's suffix |
| `RevisionUri.LineCaptureSound` | src/basic.ts:64-68 | whatever `LineCapture` returns, the regex matches the line with that capture |
| `RevisionUri.LineCaptureComplete` | src/basic.ts:64-68 | whenever the regex matches a line, `LineCapture` returns its capture |
| `RevisionUri.LineCaptureIsMatch` | src/basic.ts:64-68 | `LineCapture(line) == Some(id)` holds exactly when the regex matches `line` capturing `id` |
| `RevisionUri.CaptureIsUnique` | src/basic.ts:64-68 | a line never matches with two different captures |
| `RevisionUri.FirstCapture` | src/basic.ts:64-68 | nothing is found exactly when no line has a capture, and what is found has the shape `D` plus digits |
| `RevisionUri.FirstCaptureSkips` | src/basic.ts:64 | over a list of lines: a first line without a capture does not affect the result |
| `RevisionUri.FirstCaptureTakes` | src/basic.ts:64 | over a list of lines: a first line with a capture decides the result |
| `RevisionUri.FirstCaptureNoneIffNoMatch` | src/basic.ts:64-67 | over a list of lines: nothing is found exactly when the regex matches no line |
| `RevisionUri.FirstCaptureIsFirstMatch` | src/basic.ts:64-68 | over a list of lines: what is found is the regex's capture on the first matching line |
| `RevisionUri.ExtractRevisionId` | src/basic.ts:64-68 | an extracted revision id always has the shape `D` plus digits |
| `RevisionUri.ExtractNoneIffNoMatch` | src/basic.ts:64-67 | `match` yields nothing, and the "Could not find revision id" rejection follows, exactly when no line of the output matches |
| `RevisionUri.ExtractIsFirstMatch` | src/basic.ts:64-68 | `results[1]` is the capture on the first matching line of the output |
| `RevisionUri.ExtractSkipsLine` | src/basic.ts:64 | a non-matching first line does not affect the result |
| `RevisionUri.ExtractTakesLine` | src/basic.ts:64 | a matching first line decides the result, whatever follows it |
| `RevisionUri.StripD` | src/basic.ts:110-112 | `substr(1)`: the key is the id without its first character, and `''` gives `''` |
| `RevisionUri.StripDOfRevisionId` | src/basic.ts:74 | for an extracted id the key is its non-empty digit string, and `"D" + key` gives the id back |
| `RevisionUriExamples.CaptureOfShape` | src/basic.ts:64 | a line of the form prefix, `Revision URI`, at least one character, `/D`, digits captures `D` and those digits |
| `RevisionUriExamples.OneLineOutput` | src/basic.ts:64 | for output without a line terminator, the result is that one line's capture |
| `RevisionUriExamples.SingleLineOutput` | test/basic.test.ts:215-217 | `Revision URI: https://foo.bar/D111` yields `D111` |
| `RevisionUriExamples.ReportOutput` | test/basic.test.ts:254-260 | the tests' multi-line `arc diff --create` report yields `D111`; the URI is on its third line |
| `RevisionUriExamples.TrailingTextDoesNotMatch` | src/basic.ts:64 | `$` anchors the id at the end of the line: a trailing space means no match |
| `RevisionUriExamples.BareDDoesNotMatch` | src/basic.ts:64 | `\d+` needs at least one digit after the `D` |
| `RevisionUriExamples.SlashRightAfterMarkerDoesNotMatch` | src/basic.ts:64 | `.+` needs a character between `Revision URI` and the slashes, so `Revision URI/D1` does not match |
| `RevisionUriExamples.DoubleSlashMatches` | src/basic.ts:64 | `\/+` takes a run of slashes before the id |
| `RevisionUriExamples.TestRevisionKey` | test/basic.test.ts:13 | the key for `D111` is `111`, the id the tests' Conduit mock answers |
| `Conduit.LatestDiff` | src/basic.ts:77-98 | an error is reported exactly when `errorMessage` is truthy, and it carries that message; success exactly when there is no such error and the first record's `diffs` is present and non-empty; the id chosen is the last of that list |
| `Conduit.LatestDiffIsLast` | src/basic.ts:92-98 | whatever the other records hold, a first `diffs` list ending in `x` selects `x` |
| `Conduit.ReportedErrorWins` | src/basic.ts:77-81 | a truthy `errorMessage` rejects even when the response holds diffs |
| `Conduit.DiffQuery` | src/basic.ts:71-76 | the request is `differential.query` with one id, and putting the revision id's first character back in front of that id gives the revision id |
| `Conduit.DiffQueryOfRevisionId` | src/basic.ts:71-76 | for an extracted revision id the queried id is its digit string with the `D` removed, and two revision ids give the same query only when they are equal |
| `ConduitExamples.TestConduit` | test/basic.test.ts:11-58 | the TypeScript mock answers `differential.query` with `ids[0] == '111'` with the one-record reply, and anything else with `{}` |
| `ConduitExamples.TestConduitJs` | test/basic.test.js:3-50 | the JavaScript mock answers the same query with the same reply, and anything else with `''` |
| `ConduitExamples.TestReplies` | test/basic.test.ts:11-58 | the mocks' one-record reply with `diffs: ['424']` gives `424`; the TypeScript mock's `{}` and the JavaScript mock's `''` give no diff id |
| `ConduitExamples.EmptyReplies` | src/basic.ts:82-97 | edge cases that no test uses: an empty `response` and an empty `diffs` give no diff id |
| `ConduitExamples.TestConduitAnswersD111` | test/basic.test.ts:13-16 | both test suites' mocks answer the `differential.query` request for `D111` with the one-record reply |
| `Basic.Phb.constructor` | src/basic.ts:23-29 | `init` keeps the store as the file interface holds it and the given collaborators |
| `Basic.Phb.GetActiveRevision` | src/basic.ts:30 | returns exactly the stored revision id, `None` if none was stored |
| `Basic.Phb.SetActiveRevision` | src/basic.ts:32-33 | stores the id verbatim and leaves the stored diff alone |
| `Basic.Phb.GetActiveDiff` | src/basic.ts:35-49 | `None` when the revision is unset or empty, whatever diff is stored; `None` when the diff is unset or empty; `None` for a stale diff; the stored diff exactly when the revision is set, the diff is set and `readAllDiffs(revision)` contains it |
| `Basic.Phb.SetActiveDiff` | src/basic.ts:51 | stores the id verbatim with no membership check; the stored revision is untouched |
| `Basic.Phb.CreateNewRevision` | src/basic.ts:53-99 | empty output: rejects, nothing written. No Revision URI line: rejects, nothing written. Otherwise the revision becomes the extracted id and Conduit is asked `differential.query` for `[id without its first character]`. On success the diff becomes the last id of the reply; on any reply failure it rejects with that id and the fault, leaving the diff as it was |
| `Basic.SetThenGetRevision` | test/basic.test.ts:100-117 | `setActiveRevision(r)` then `getActiveRevision()` gives `r` |
| `Basic.SetThenGetDiff` | test/basic.test.ts:188-208 | `setActiveDiff(d)` then `getActiveDiff()` gives `d` exactly when `d` is non-empty and listed for the set active revision |
| `Basic.ReadsAreRepeatable` | src/basic.ts:30-49 | the read operations write nothing, so two calls in a row give the same answers |
| `Basic.CreateThenGetActive` | src/basic.ts:53-99 | after a successful creation the new revision is active, and the new diff is active exactly when it is not `''` and `readAllDiffs` lists it for that revision; a rejection before the Conduit query leaves the active revision as it was |
| `Basic.CreatesTestRevision` | test/basic.test.ts:247-331 | with the tests' tool output and Conduit mock, `D111` and `424` are stored |
| `Basic.EmptyOutputWritesNothing` | src/basic.ts:60-63 | a tool that prints nothing rejects with the tool error, and both stored ids keep their values |
| `BasicJs.WithDefaults` | src/basic.js:1-13 | supplied options are kept; each missing collaborator behaves as `async () => null`: readers read `null`, writers drop the write, `readAllDiffs` and the arc command give `null`, and Conduit gives a promise of `null` |
| `BasicJs.JsonDataAsWritten` | src/basic.js:48-50 | without `await`, an asynchronous collaborator's result is a pending promise, which has neither `errorMessage` nor `response`; a synchronous one's value is used as is |
| `BasicJs.UnawaitedQueryAlwaysFails` | src/basic.js:48-65 | as written, an asynchronous Conduit collaborator always ends in the "could not find differential ids" rejection, whatever it replies |
| `BasicJs.UnawaitedTestReplyIsLost` | src/basic.js:48-72 | the tests' reply, delivered by an `async` function: the reply gives `424`, but the code as written finds nothing in it |
| `BasicJs.Awaited` | src/basic.js:48-50 | the corrected line 48: `await` yields the reply the collaborator delivers, whether at once or as a promise, as at `src/basic.ts:71` |
| `BasicJs.AwaitedIgnoresDelivery` | src/basic.ts:71-76 | once awaited, a reply decides the same whether it came synchronously or as a promise |
| `BasicJs.PhbJs.constructor` | src/basic.js:12-13 | `init(options)` overlays the options on the defaults |
| `BasicJs.PhbJs.GetActiveRevision` | src/basic.js:14 | the stored revision when `readRevision` was supplied, `None` when it was not |
| `BasicJs.PhbJs.SetActiveRevision` | src/basic.js:16 | stores the id when `writeRevision` was supplied, drops it otherwise |
| `BasicJs.PhbJs.GetActiveDiff` | src/basic.js:18-32 | the same three-stage check over what the readers return: no revision or no diff gives `None`; with both set, a missing `readAllDiffs` throws; otherwise the diff exactly when it is listed for the revision |
| `BasicJs.PhbJs.SetActiveDiff` | src/basic.js:34 | stores the id when `writeDiff` was supplied, drops it otherwise |
| `BasicJs.PhbJs.CreateNewRevision` | src/basic.js:36-73 | with no `runArcCommand` it rejects before any write. Otherwise it behaves as in `src/basic.ts`, with the Conduit reply awaited, writing only through supplied writers. It keeps the object's invariant |
| `BasicJs.InitWithNoOptions` | src/basic.js:1-13 | with no options: no active revision, no active diff, and creation rejects with the tool error |
| `BasicJs.SetThenGetRevision` | test/basic.test.js:71-83 | with reader and writer supplied, `setActiveRevision(r)` then `getActiveRevision()` gives `r` |
| `BasicJs.SetThenGetDiff` | test/basic.test.js:133-147 | `setActiveDiff(d)` then `getActiveDiff()` gives `d` when it is listed for the active revision |
| `BasicJs.CreatesTestRevision` | test/basic.test.js:174-232 | with the tests' tool output and the JavaScript suite's synchronous Conduit mock, `D111` and `424` are stored |

## Findings

| source | as written | input that shows it | evidently intended | confidence | as-written member | corrected member |
|---|---|---|---|---|---|---|
| src/basic.js:48-50 | `jsonData` is the return value of `runArcConduitCommand`, which is not awaited | any `async` Conduit collaborator, e.g. one resolving to the tests' reply with `diffs: ['424']`, or the default `noop`: `jsonData` is a pending promise with no `response`, so the call rejects with "could not find differential ids" after writing the revision | await the reply, as `src/basic.ts:71` does, and store `424` | high; not executed (the tests' mock is synchronous, which hides it) | `BasicJs.UnawaitedQueryAlwaysFails` | `BasicJs.PhbJs.CreateNewRevision` |

## Left out

- Promises and `async`: every step completes in program order. The writes at
  `src/basic.ts:69`, `:98` and `src/basic.js:46`, `:72` are not awaited; the model treats them
  as done before the next step. The un-awaited Conduit call of `src/basic.js:48` is the finding above.
- Failures of the collaborators themselves (a rejected read, write, tool run or query). An
  awaited collaborator's failure propagates unchanged in the source, whose core adds nothing to
  it. The five calls that are not awaited are different: the writes at `src/basic.ts:69`, `:98`
  and `src/basic.js:46`, `:72`, and the Conduit call at `src/basic.js:48`. A rejection at any of
  them never reaches the caller of `createNewRevision`; it becomes an unhandled rejection while
  the call goes on or resolves. At `src/basic.js:48` the call then fails later with "could not
  find differential ids".
- The file-backed store, the process that runs `arc` (`utils.js`) and the script `index.js`.
  They are I/O only. The store is the two fields; the tool and Conduit are function inputs.
- `readAllDiffs` is a fixed function of the revision id. The tests' mocks compute it from
  their saved ids, which the model does not follow.
- `BasicJs.PhbJs`: a supplied `readRevision`, `writeRevision`, `readDiff` or `writeDiff` is
  assumed to read or write the store. Arbitrary reader and writer functions are not modelled.
  A test reader that returns a constant is a store holding that constant.
- Conduit reply fields other than `errorMessage`, `response` and `diffs`, including the unread
  `error` of `src/types.ts:24`. A `null` record inside `response` is also left out, because
  `src/types.ts:26` excludes it.
- Error messages: each rejection is an error kind. The kinds raised after the revision is
  written keep the revision id, which the messages name.
- A tool output that is not a string: `null` and `undefined` are falsy like `''`, so they are
  modelled as `''` (TypeScript) or `None` (JavaScript).
- The commented TODO steps of `src/basic.ts:54-59`, which are not implemented.
- A general regex engine: only this one pattern is modelled, as a line predicate.
- Concurrent calls against the same store.
