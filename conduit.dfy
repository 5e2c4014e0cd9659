/**
 * The Conduit side of `createNewRevision`: the `differential.query` request, the reply
 * envelope (`ArcConduitCommandResult` with its `ArcConduitResponse` records, reduced to the
 * fields the core reads), and the validation that picks the newest diff id out of a reply.
 */
module Conduit {
  import opened Wrappers
  import opened Js
  import RevisionUri

  /** One record of `response`; of its many fields only `diffs` is read. */
  datatype ResponseRecord = ResponseRecord(diffs: Option<seq<string>>)

  /**
   * What the Conduit call resolves to: a falsy value (`null`, `undefined`, `''`), or an object
   * whose `errorMessage` and `response` fields may each be absent.
   */
  datatype Reply =
    | Nothing
    | Reply(errorMessage: Option<string>, response: Option<seq<ResponseRecord>>)

  /** A Conduit request: the method name and the `ids` payload. */
  datatype Query = Query(command: string, ids: seq<string>)

  /** Why a reply yields no diff id. */
  datatype Fault =
    | ErrorReported(message: string)  // a truthy `errorMessage`
    | NoDiffIds                       // no reply, no records, no `diffs`, or an empty `diffs`

  const DifferentialQuery: string := "differential.query"

  /** The request `createNewRevision` sends for a new revision: it is keyed by the id without its `D`. */
  function DiffQuery(revisionId: string): (q: Query)
    ensures q.command == DifferentialQuery && |q.ids| == 1
    ensures |revisionId| > 0 ==> [revisionId[0]] + q.ids[0] == revisionId
  {
    Query(DifferentialQuery, [RevisionUri.StripD(revisionId)])
  }

  /** For revision ids the query is keyed by the digits, so different revisions ask different queries. */
  lemma DiffQueryOfRevisionId(a: string, b: string)
    requires RevisionUri.IsRevisionId(a) && RevisionUri.IsRevisionId(b)
    ensures RevisionUri.AllDigits(DiffQuery(a).ids[0]) && "D" + DiffQuery(a).ids[0] == a
    ensures DiffQuery(a) == DiffQuery(b) <==> a == b
  {
    RevisionUri.StripDOfRevisionId(a);
    RevisionUri.StripDOfRevisionId(b);
  }

  /** `jsonData && jsonData.errorMessage` is truthy. */
  predicate Reported(reply: Reply)
  {
    reply.Reply? && Truthy(reply.errorMessage)
  }

  /** `jsonData.response[0].diffs`, where the reply, its `response` and a first record exist. */
  function FirstDiffs(reply: Reply): Option<seq<string>>
  {
    if reply.Reply? && reply.response.Some? && |reply.response.value| >= 1
    then reply.response.value[0].diffs
    else None
  }

  /**
   * The newest diff id of a reply, checked in the order of the source: a reported error first,
   * then the shape of the reply; on success the LAST id of the first record's `diffs`.
   */
  function LatestDiff(reply: Reply): (r: Result<string, Fault>)
    ensures (r.Failure? && r.error.ErrorReported?) <==> Reported(reply)
    ensures r.Failure? && r.error.ErrorReported? ==> reply.errorMessage == Some(r.error.message)
    ensures r.Success? <==> !Reported(reply) && FirstDiffs(reply).Some? && |FirstDiffs(reply).value| >= 1
    ensures r.Success? ==> var ds := FirstDiffs(reply).value;
      r.value in ds && r.value == ds[|ds| - 1]
  {
    if reply.Reply? && Truthy(reply.errorMessage) then
      Failure(ErrorReported(reply.errorMessage.value))
    else if reply.Nothing? || reply.response.None? || |reply.response.value| < 1
         || reply.response.value[0].diffs.None? then
      Failure(NoDiffIds)
    else
      var diffIds := reply.response.value[0].diffs.value;
      if |diffIds| < 1 then Failure(NoDiffIds) else Success(diffIds[|diffIds| - 1])
  }

  /** Whatever else the reply holds, a diff list ending in `x` selects `x`. */
  lemma LatestDiffIsLast(message: Option<string>, ds: seq<string>, x: string, others: seq<ResponseRecord>)
    requires !Truthy(message)
    ensures LatestDiff(Reply(message, Some([ResponseRecord(Some(ds + [x]))] + others))) == Success(x)
  {
  }

  /** A reported error wins over any response records. */
  lemma ReportedErrorWins(message: string, response: Option<seq<ResponseRecord>>)
    requires message != ""
    ensures LatestDiff(Reply(Some(message), response)) == Failure(ErrorReported(message))
  {
  }
}

/** The Conduit mocks of the repository's tests, and replies at the edges of the validation. */
module ConduitExamples {
  import opened Wrappers
  import opened Conduit
  import RevisionUriExamples

  /**
   * The one-record reply of both test suites, with `diffs: ['424']`; the JavaScript mock's
   * `errorMessage: null` reads as absent.
   */
  const TestReply: Reply := Reply(None, Some([ResponseRecord(Some(["424"]))]))

  /** True for the request both mocks answer: `differential.query` with `ids[0] == '111'`. */
  predicate AnsweredQuery(q: Query)
  {
    q.command == DifferentialQuery && |q.ids| > 0 && q.ids[0] == "111"
  }

  /** The TypeScript tests' mock of `runArcConduitCommand`: `TestReply`, and `{}` for anything else. */
  function TestConduit(q: Query): (reply: Reply)
    ensures AnsweredQuery(q) ==> reply == TestReply
    ensures !AnsweredQuery(q) ==> reply == Reply(None, None)
  {
    if q.command != DifferentialQuery || |q.ids| == 0 || q.ids[0] != "111" then Reply(None, None)
    else TestReply
  }

  /** The JavaScript tests' mock: `TestReply`, and `''` for anything else. */
  function TestConduitJs(q: Query): (reply: Reply)
    ensures AnsweredQuery(q) ==> reply == TestReply
    ensures !AnsweredQuery(q) ==> reply == Nothing
  {
    if q.command != DifferentialQuery || |q.ids| == 0 || q.ids[0] != "111" then Nothing
    else TestReply
  }

  /** What the mocks answer: the one-record reply gives `'424'`; `{}` and `''` give no diff id. */
  lemma TestReplies()
    ensures LatestDiff(TestReply) == Success("424")
    ensures LatestDiff(Reply(None, None)) == Failure(NoDiffIds)
    ensures LatestDiff(Nothing) == Failure(NoDiffIds)
  {
  }

  /** Edge cases of the shape checks: an empty `response` and an empty `diffs` give no diff id. */
  lemma EmptyReplies()
    ensures LatestDiff(Reply(None, Some([]))) == Failure(NoDiffIds)
    ensures LatestDiff(Reply(None, Some([ResponseRecord(Some([]))]))) == Failure(NoDiffIds)
  {
  }

  /** Both mocks answer the query for the tests' revision `D111` with the one-record reply. */
  lemma TestConduitAnswersD111()
    ensures TestConduit(DiffQuery("D111")) == TestReply
    ensures TestConduitJs(DiffQuery("D111")) == TestReply
  {
    RevisionUriExamples.TestRevisionKey();
  }
}
