/** What services throw and what the API routes answer. */
module Errors {
  import opened Wrappers

  /** One step of the path zod reports for an issue: an object key or an array index. */
  datatype PathPart = Key(name: string) | Index(i: nat)

  /** One problem found by a zod schema. */
  datatype Issue = Issue(path: seq<PathPart>, message: string)

  /** A zod error always carries at least one issue. */
  type Issues = s: seq<Issue> | |s| > 0 witness [Issue([], "")]

  /** An exception a service call ends with: a zod validation failure, or any other error
      with an optional code (Prisma's `P2002`, `P2025`, ...) and its message. */
  datatype Failure = Invalid(issues: Issues) | Thrown(code: Option<string>, message: string)

  /** The JSON body of a reply. */
  datatype Body<T> =
    | Data(value: T)
    | Error(message: string)
    | ErrorDetails(message: string, details: seq<Issue>)
    | Message(text: string)

  /** An HTTP reply: a status code and a JSON body. */
  datatype Reply<T> = Reply(status: nat, body: Body<T>)

  /** A page of a list endpoint with the number of rows matching overall. */
  datatype Listing<T> = Listing(items: seq<T>, total: nat)

  /** The reply every protected route gives when there is no signed-in user. */
  function Unauthorized<T>(): Reply<T> {
    Reply(401, Error("Unauthorized"))
  }

  /** Prisma's error when an `update` names an id that is not in the table. */
  function RecordNotFound(): Failure {
    Thrown(Some("P2025"), "Record to update not found.")
  }

  /** The issues of every element of an array field `key`, element `from + i` at index `i`. */
  function ListIssues<T>(xs: seq<T>, key: string, from: nat, check: (T, seq<PathPart>) -> seq<Issue>): (r: seq<Issue>)
    ensures r == [] <==> forall i :: 0 <= i < |xs| ==> check(xs[i], [Key(key), Index(from + i)]) == []
  {
    if xs == [] then []
    else check(xs[0], [Key(key), Index(from)]) + ListIssues(xs[1..], key, from + 1, check)
  }

  /** An array field has no issues exactly when every element is acceptable on its own. */
  lemma ListIssuesEmptyIff<T>(xs: seq<T>, key: string, check: (T, seq<PathPart>) -> seq<Issue>, ok: T -> bool)
    requires forall x, at :: check(x, at) == [] <==> ok(x)
    ensures ListIssues(xs, key, 0, check) == [] <==> forall x :: x in xs ==> ok(x)
  {
    assert (forall i :: 0 <= i < |xs| ==> check(xs[i], [Key(key), Index(0 + i)]) == [])
       <==> (forall i :: 0 <= i < |xs| ==> ok(xs[i]));
  }
}
