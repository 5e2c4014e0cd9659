/**
 * The object `init` returns in src/basic.ts: five closures over a file interface (the stored
 * active revision and diff, and the authoritative diff list of each revision) and an arc
 * interface (the command-line tool and its Conduit API). The closures become the methods of
 * class `Phb`; the stored ids are its fields, the collaborators its constants.
 */
module Basic {
  import opened Wrappers
  import opened Js
  import opened RevisionUri
  import opened Conduit
  import opened ConduitExamples

  /** The ways `createNewRevision` rejects. */
  datatype Error =
    | NoToolOutput                                  // the arc command returned nothing
    | NoRevisionId                                  // no line of its output holds a Revision URI
    | QueryFailed(revisionId: string, fault: Fault)  // the revision is created, but no diff id was found

  /** The arc command that creates a revision. */
  const CreateCommand: string := "diff --create"

  class Phb {
    /** What `readRevision` returns and `writeRevision` replaces. */
    var revision: Option<string>
    /** What `readDiff` returns and `writeDiff` replaces. */
    var diff: Option<string>
    /** `readAllDiffs`: the ids of the diffs that currently belong to a revision. */
    const readAllDiffs: string -> seq<string>
    /** `runArcCommand`: the text the arc tool prints for a command. */
    const runArcCommand: string -> string
    /** `runArcConduitCommand`: the reply Conduit gives to a request. */
    const runArcConduitCommand: Query -> Reply

    /** `init`: the store as the file interface holds it, and the collaborators. */
    constructor (revision: Option<string>, diff: Option<string>, readAllDiffs: string -> seq<string>,
                 runArcCommand: string -> string, runArcConduitCommand: Query -> Reply)
      ensures this.revision == revision && this.diff == diff
      ensures this.readAllDiffs == readAllDiffs && this.runArcCommand == runArcCommand
      ensures this.runArcConduitCommand == runArcConduitCommand
    {
      this.revision := revision;
      this.diff := diff;
      this.readAllDiffs := readAllDiffs;
      this.runArcCommand := runArcCommand;
      this.runArcConduitCommand := runArcConduitCommand;
    }

    /** The stored revision id, as stored: `None` when none was ever written. */
    method GetActiveRevision() returns (r: Option<string>)
      ensures r == revision
    {
      r := revision;
    }

    /** Stores `id` verbatim; the stored diff is untouched. */
    method SetActiveRevision(id: string)
      modifies this`revision
      ensures revision == Some(id)
    {
      revision := Some(id);
    }

    /**
     * The active diff: the stored diff id, but only when a revision is set, a diff is set, and
     * the diff still belongs to that revision; `None` otherwise, so that a stale id is masked.
     */
    method GetActiveDiff() returns (d: Option<string>)
      ensures !Truthy(revision) ==> d == None
      ensures Truthy(revision) && !Truthy(diff) ==> d == None
      ensures Truthy(revision) && Truthy(diff) && diff.value !in readAllDiffs(revision.value) ==> d == None
      ensures d.Some? <==> Truthy(revision) && Truthy(diff) && diff.value in readAllDiffs(revision.value)
      ensures d.Some? ==> d == diff
    {
      var revisionId := GetActiveRevision();
      if !Truthy(revisionId) {
        return None;
      }
      var diffId := diff;
      if !Truthy(diffId) {
        return None;
      }
      var idsInRevision := readAllDiffs(revisionId.value);
      if diffId.value !in idsInRevision {
        return None;
      }
      return diffId;
    }

    /** Stores `id` verbatim, with no membership check; the stored revision is untouched. */
    method SetActiveDiff(id: string)
      modifies this`diff
      ensures diff == Some(id)
    {
      diff := Some(id);
    }

    /**
     * Runs `arc diff --create`, stores the revision id its output names, asks Conduit for that
     * revision's diffs (keyed by the id without its `D`) and stores the last of them.
     * Empty output or no Revision URI line: nothing is written. Any Conduit failure: the
     * revision is already written and the diff is left as it was.
     */
    method CreateNewRevision() returns (outcome: Outcome<Error>)
      modifies this
      ensures var output := runArcCommand(CreateCommand);
        output == "" ==> outcome == Fail(NoToolOutput) && revision == old(revision) && diff == old(diff)
      ensures var output := runArcCommand(CreateCommand);
        output != "" && ExtractRevisionId(output).None? ==>
          outcome == Fail(NoRevisionId) && revision == old(revision) && diff == old(diff)
      ensures var output := runArcCommand(CreateCommand);
        output != "" && ExtractRevisionId(output).Some? ==>
          var id := ExtractRevisionId(output).value;
          && revision == Some(id)
          && match LatestDiff(runArcConduitCommand(DiffQuery(id)))
             case Success(d) => outcome == Pass && diff == Some(d)
             case Failure(f) => outcome == Fail(QueryFailed(id, f)) && diff == old(diff)
    {
      var output := runArcCommand(CreateCommand);
      if output == "" {
        return Fail(NoToolOutput);
      }
      var results := ExtractRevisionId(output);
      if results.None? {
        return Fail(NoRevisionId);
      }
      var revisionId := results.value;
      revision := Some(revisionId);

      var jsonData := runArcConduitCommand(DiffQuery(revisionId));
      var latest := LatestDiff(jsonData);
      if latest.Failure? {
        return Fail(QueryFailed(revisionId, latest.error));
      }
      diff := Some(latest.value);
      return Pass;
    }
  }

  // -----------------------------------------------------------------------------------------
  // What callers can rely on when they combine the operations

  /** `setActiveRevision(r)` then `getActiveRevision()` gives `r`. */
  method SetThenGetRevision(p: Phb, id: string) returns (r: Option<string>)
    modifies p
    ensures r == Some(id) && p.diff == old(p.diff)
  {
    p.SetActiveRevision(id);
    r := p.GetActiveRevision();
  }

  /** `setActiveDiff(d)` then `getActiveDiff()` gives `d` exactly when `d` belongs to the active revision. */
  method SetThenGetDiff(p: Phb, id: string) returns (d: Option<string>)
    modifies p
    ensures p.revision == old(p.revision)
    ensures d == if Truthy(p.revision) && id != "" && id in p.readAllDiffs(p.revision.value)
                 then Some(id) else None
  {
    p.SetActiveDiff(id);
    d := p.GetActiveDiff();
  }

  /** The read operations change nothing: asking twice gives the same answers. */
  method ReadsAreRepeatable(p: Phb) returns (r1: Option<string>, r2: Option<string>,
                                             d1: Option<string>, d2: Option<string>)
    ensures r1 == r2 && d1 == d2
    ensures d1.Some? ==> d1 == p.diff && r1 == p.revision
  {
    r1 := p.GetActiveRevision();
    d1 := p.GetActiveDiff();
    r2 := p.GetActiveRevision();
    d2 := p.GetActiveDiff();
  }

  /**
   * After a successful creation the new revision is active, and the new diff is active exactly
   * when it is not `''` and `readAllDiffs` already lists it for the new revision.
   */
  method CreateThenGetActive(p: Phb) returns (outcome: Outcome<Error>, r: Option<string>, d: Option<string>)
    modifies p
    ensures outcome.Pass? ==> ExtractRevisionId(p.runArcCommand(CreateCommand)).Some?
    ensures outcome.Pass? && ExtractRevisionId(p.runArcCommand(CreateCommand)).Some? ==>
      var id := ExtractRevisionId(p.runArcCommand(CreateCommand)).value;
      && r == Some(id) && RevisionUri.IsRevisionId(id)
      && p.diff.Some? && (d.Some? <==> Truthy(p.diff) && p.diff.value in p.readAllDiffs(id))
    ensures outcome.Fail? && !outcome.error.QueryFailed? ==> r == old(p.revision)
  {
    outcome := p.CreateNewRevision();
    r := p.GetActiveRevision();
    d := p.GetActiveDiff();
  }

  /**
   * The repository's `createNewRevision` tests: the arc tool prints its report for
   * `diff --create`, Conduit answers the mock reply; the revision `D111` and the diff `424`
   * are stored.
   */
  method CreatesTestRevision() returns (revision: Option<string>, diff: Option<string>)
    ensures revision == Some("D111") && diff == Some("424")
  {
    var p := new Phb(None, None, _ => [],
                     command => if command != CreateCommand then "" else RevisionUriExamples.Report,
                     TestConduit);
    RevisionUriExamples.ReportOutput();
    TestConduitAnswersD111();
    TestReplies();
    var outcome := p.CreateNewRevision();
    revision, diff := p.revision, p.diff;
  }

  /** A tool that prints nothing rejects before anything is written. */
  method EmptyOutputWritesNothing(revision: Option<string>, diff: Option<string>)
    returns (outcome: Outcome<Error>, revision': Option<string>, diff': Option<string>)
    ensures outcome == Fail(NoToolOutput) && revision' == revision && diff' == diff
  {
    var p := new Phb(revision, diff, _ => [], _ => "", TestConduit);
    outcome := p.CreateNewRevision();
    revision', diff' := p.revision, p.diff;
  }
}
