/**
 * The older src/basic.js: the same five closures, but over an options object that `init`
 * spreads over defaults in which every collaborator is `async () => null`.
 *
 * The file collaborators are recorded only as supplied or missing: a supplied one reads or
 * writes the store the class holds, a missing one is the null-returning default, so a missing
 * reader reads "not set" and a missing writer drops the write.
 */
module BasicJs {
  import opened Wrappers
  import opened Js
  import opened RevisionUri
  import opened Conduit
  import opened ConduitExamples
  import opened Basic

  /**
   * What `runArcConduitCommand` returns: the reply itself (a synchronous function, as the
   * tests' mock is) or a promise of it (an `async` function, as the default is).
   */
  datatype Call = Immediate(value: Reply) | Deferred(value: Reply)

  /** The options passed to `init`; `None` or `false` means the key was left out. */
  datatype Options = Options(
    readRevision: bool,
    writeRevision: bool,
    readDiff: bool,
    writeDiff: bool,
    readAllDiffs: Option<string -> seq<string>>,
    runArcCommand: Option<string -> string>,
    runArcConduitCommand: Option<Query -> Call>)

  /**
   * The collaborators after `{ ...defaultOptions, ...options }`: readers map the stored value
   * to what they return, writers map the stored value and the argument to the new stored value.
   */
  datatype Collaborators = Collaborators(
    readRevision: Option<string> -> Option<string>,
    writeRevision: (Option<string>, string) -> Option<string>,
    readDiff: Option<string> -> Option<string>,
    writeDiff: (Option<string>, string) -> Option<string>,
    readAllDiffs: string -> Option<seq<string>>,
    runArcCommand: string -> Option<string>,
    runArcConduitCommand: Query -> Call)

  /** `init`'s overlay: each supplied option is kept, each missing one is `async () => null`. */
  function WithDefaults(options: Options): (c: Collaborators)
    ensures forall v :: c.readRevision(v) == if options.readRevision then v else None
    ensures forall v, id :: c.writeRevision(v, id) == if options.writeRevision then Some(id) else v
    ensures forall v :: c.readDiff(v) == if options.readDiff then v else None
    ensures forall v, id :: c.writeDiff(v, id) == if options.writeDiff then Some(id) else v
    ensures forall r :: (c.readAllDiffs(r) ==
      if options.readAllDiffs.Some? then Some(options.readAllDiffs.value(r)) else None)
    ensures forall command :: (c.runArcCommand(command) ==
      if options.runArcCommand.Some? then Some(options.runArcCommand.value(command)) else None)
    ensures forall q :: (c.runArcConduitCommand(q) ==
      if options.runArcConduitCommand.Some? then options.runArcConduitCommand.value(q) else Deferred(Nothing))
  {
    Collaborators(
      if options.readRevision then v => v else _ => None,
      if options.writeRevision then (_, id) => Some(id) else (v, _) => v,
      if options.readDiff then v => v else _ => None,
      if options.writeDiff then (_, id) => Some(id) else (v, _) => v,
      match options.readAllDiffs
      case Some(f) => r => Some(f(r))
      case None => _ => None,
      match options.runArcCommand
      case Some(f) => command => Some(f(command))
      case None => _ => None,
      match options.runArcConduitCommand
      case Some(f) => f
      case None => _ => Deferred(Nothing))
  }

  /** `idsInRevision.includes(diffId)` on the `null` a missing `readAllDiffs` gives throws. */
  datatype TypeError = IncludesOnNull

  /**
   * `jsonData` as src/basic.js:48 computes it: the call's return value, not awaited. A pending
   * promise is truthy and has neither an `errorMessage` nor a `response` field.
   */
  function JsonDataAsWritten(call: Call): (v: Reply)
    ensures call.Deferred? ==> v.Reply? && v.errorMessage.None? && v.response.None?
    ensures call.Immediate? ==> v == call.value
  {
    match call
    case Immediate(reply) => reply
    case Deferred(_) => Reply(None, None)
  }

  /** As written, an asynchronous Conduit collaborator always fails, whatever it replies. */
  lemma UnawaitedQueryAlwaysFails(call: Call)
    requires call.Deferred?
    ensures LatestDiff(JsonDataAsWritten(call)) == Failure(NoDiffIds)
  {
  }

  /** The tests' reply, delivered by an `async` mock: as written it is lost. */
  lemma UnawaitedTestReplyIsLost()
    ensures LatestDiff(TestReply) == Success("424")
    ensures LatestDiff(JsonDataAsWritten(Deferred(TestReply))) == Failure(NoDiffIds)
  {
    TestReplies();
  }

  /** `await options.runArcConduitCommand(...)`, as src/basic.ts:71 does: the delivered reply. */
  function Awaited(call: Call): (reply: Reply)
    ensures call == Immediate(reply) || call == Deferred(reply)
  {
    call.value
  }

  /** Awaited, the reply decides the same whether it came synchronously or as a promise. */
  lemma AwaitedIgnoresDelivery(reply: Reply)
    ensures LatestDiff(Awaited(Immediate(reply))) == LatestDiff(Awaited(Deferred(reply)))
    ensures LatestDiff(Awaited(Deferred(reply))) == LatestDiff(reply)
  {
  }

  class PhbJs {
    /** What a supplied `readRevision` returns and a supplied `writeRevision` replaces. */
    var revision: Option<string>
    /** What a supplied `readDiff` returns and a supplied `writeDiff` replaces. */
    var diff: Option<string>
    /** The options given to `init`. */
    const supplied: Options
    /** The collaborators after the overlay on the defaults. */
    const options: Collaborators

    /** `init(options)`: the store as the collaborators hold it, and the overlaid options. */
    constructor (supplied: Options, revision: Option<string>, diff: Option<string>)
      ensures this.supplied == supplied && this.options == WithDefaults(supplied)
      ensures this.revision == revision && this.diff == diff
    {
      this.supplied := supplied;
      this.options := WithDefaults(supplied);
      this.revision := revision;
      this.diff := diff;
    }

    ghost predicate Valid()
      reads this
    {
      options == WithDefaults(supplied)
    }

    /** The stored revision, or `None` when no `readRevision` was supplied. */
    method GetActiveRevision() returns (r: Option<string>)
      requires Valid()
      ensures r == if supplied.readRevision then revision else None
    {
      r := options.readRevision(revision);
    }

    /** Stores `id` when a `writeRevision` was supplied; drops it otherwise. */
    method SetActiveRevision(id: string)
      requires Valid()
      modifies this`revision
      ensures revision == if supplied.writeRevision then Some(id) else old(revision)
    {
      revision := options.writeRevision(revision, id);
    }

    /**
     * The same three-stage check as src/basic.ts, over what the overlaid readers return; a
     * missing `readAllDiffs` makes the third stage throw.
     */
    method GetActiveDiff() returns (d: Result<Option<string>, TypeError>)
      requires Valid()
      ensures var rev := if supplied.readRevision then revision else None;
        var stored := if supplied.readDiff then diff else None;
        && (!Truthy(rev) ==> d == Success(None))
        && (Truthy(rev) && !Truthy(stored) ==> d == Success(None))
        && (d.Failure? <==> Truthy(rev) && Truthy(stored) && supplied.readAllDiffs.None?)
        && (d.Success? && d.value.Some? <==>
              Truthy(rev) && Truthy(stored) && supplied.readAllDiffs.Some? &&
              stored.value in supplied.readAllDiffs.value(rev.value))
        && (d.Success? && d.value.Some? ==> d.value == stored)
    {
      var revisionId := GetActiveRevision();
      if !Truthy(revisionId) {
        return Success(None);
      }
      var diffId := options.readDiff(diff);
      if !Truthy(diffId) {
        return Success(None);
      }
      var idsInRevision := options.readAllDiffs(revisionId.value);
      if idsInRevision.None? {
        return Failure(IncludesOnNull);
      }
      if diffId.value !in idsInRevision.value {
        return Success(None);
      }
      return Success(diffId);
    }

    /** Stores `id` when a `writeDiff` was supplied; drops it otherwise. */
    method SetActiveDiff(id: string)
      requires Valid()
      modifies this`diff
      ensures diff == if supplied.writeDiff then Some(id) else old(diff)
    {
      diff := options.writeDiff(diff, id);
    }

    /**
     * The creation sequence of src/basic.js with the Conduit reply awaited (see
     * `JsonDataAsWritten` for the code as written). With no `runArcCommand` supplied it
     * rejects before any write; the writes happen only through supplied writers.
     */
    method CreateNewRevision() returns (outcome: Outcome<Error>)
      requires Valid()
      modifies this
      ensures Valid()
      ensures supplied.runArcCommand.None? ==>
        outcome == Fail(NoToolOutput) && revision == old(revision) && diff == old(diff)
      ensures supplied.runArcCommand.Some? ==>
        var output := supplied.runArcCommand.value(CreateCommand);
        && (output == "" ==> outcome == Fail(NoToolOutput) && revision == old(revision) && diff == old(diff))
        && (output != "" && ExtractRevisionId(output).None? ==>
              outcome == Fail(NoRevisionId) && revision == old(revision) && diff == old(diff))
        && (output != "" && ExtractRevisionId(output).Some? ==>
              var id := ExtractRevisionId(output).value;
              var call := if supplied.runArcConduitCommand.Some?
                          then supplied.runArcConduitCommand.value(DiffQuery(id)) else Deferred(Nothing);
              && revision == (if supplied.writeRevision then Some(id) else old(revision))
              && match LatestDiff(call.value)
                 case Success(d) => outcome == Pass && diff == (if supplied.writeDiff then Some(d) else old(diff))
                 case Failure(f) => outcome == Fail(QueryFailed(id, f)) && diff == old(diff))
    {
      var output := options.runArcCommand(CreateCommand);
      if !Truthy(output) {
        return Fail(NoToolOutput);
      }
      var results := ExtractRevisionId(output.value);
      if results.None? {
        return Fail(NoRevisionId);
      }
      var revisionId := results.value;
      revision := options.writeRevision(revision, revisionId);

      var jsonData := Awaited(options.runArcConduitCommand(DiffQuery(revisionId)));
      var latest := LatestDiff(jsonData);
      if latest.Failure? {
        return Fail(QueryFailed(revisionId, latest.error));
      }
      diff := options.writeDiff(diff, latest.value);
      return Pass;
    }
  }

  /** No options at all: no revision, no diff, and creation rejects at once. */
  method InitWithNoOptions(revision: Option<string>, diff: Option<string>)
    returns (r: Option<string>, d: Result<Option<string>, TypeError>, outcome: Outcome<Error>)
    ensures r == None && d == Success(None) && outcome == Fail(NoToolOutput)
  {
    var p := new PhbJs(Options(false, false, false, false, None, None, None), revision, diff);
    r := p.GetActiveRevision();
    d := p.GetActiveDiff();
    outcome := p.CreateNewRevision();
  }

  /** `setActiveRevision(r)` then `getActiveRevision()` gives `r` when both collaborators are supplied. */
  method SetThenGetRevision(p: PhbJs, id: string) returns (r: Option<string>)
    requires p.Valid() && p.supplied.readRevision && p.supplied.writeRevision
    modifies p
    ensures r == Some(id)
  {
    p.SetActiveRevision(id);
    r := p.GetActiveRevision();
  }

  /** `setActiveDiff(d)` then `getActiveDiff()` gives `d` when it belongs to the active revision. */
  method SetThenGetDiff(p: PhbJs, id: string) returns (d: Result<Option<string>, TypeError>)
    requires p.Valid() && p.supplied.readDiff && p.supplied.writeDiff
    requires p.supplied.readRevision && Truthy(p.revision) && p.supplied.readAllDiffs.Some?
    requires id != "" && id in p.supplied.readAllDiffs.value(p.revision.value)
    modifies p
    ensures d == Success(Some(id))
  {
    p.SetActiveDiff(id);
    d := p.GetActiveDiff();
  }

  /**
   * The repository's JavaScript `createNewRevision` tests, with that suite's synchronous Conduit
   * mock (`''` for other queries) awaited: the revision `D111` and the diff `424` are stored.
   */
  method CreatesTestRevision() returns (revision: Option<string>, diff: Option<string>)
    ensures revision == Some("D111") && diff == Some("424")
  {
    var options := Options(true, true, true, true, Some(_ => []),
                           Some(command => if command != CreateCommand then "" else RevisionUriExamples.Report),
                           Some(q => Immediate(TestConduitJs(q))));
    var p := new PhbJs(options, None, None);
    RevisionUriExamples.ReportOutput();
    TestConduitAnswersD111();
    TestReplies();
    var outcome := p.CreateNewRevision();
    revision, diff := p.revision, p.diff;
  }
}
