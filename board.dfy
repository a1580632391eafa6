/**
  The project board as the bot sees it: the fixed names it works with, the
  entities the remote board service reports, the answers that service gives,
  and the calls the bot makes to it.
 */
module Board {

  const OWNER: string := "iamhopaul123"
  const REPO: string := "penghaoh-flask-app"
  const PROJECT_NAME: string := "Sprint"
  const BACKLOG: string := "Backlog"
  const IN_PROGRESS: string := "In progress"
  const IN_REVIEW: string := "In review"
  const PENDING_RELEASE: string := "Pending release"

  /** The four workflow columns, in the order their cards are gathered. */
  const AllColumns: seq<string> := [BACKLOG, IN_PROGRESS, IN_REVIEW, PENDING_RELEASE]

  /** The same four names as a set: the keys of a resolved column table. */
  const Required: set<string> := {BACKLOG, IN_PROGRESS, IN_REVIEW, PENDING_RELEASE}

  /** HTTP status codes the handler writes itself. */
  const StatusOK: int := 200
  const StatusCreated: int := 201
  const StatusAccepted: int := 202
  const StatusBadRequest: int := 400
  const StatusUnauthorized: int := 401

  /** Remote identifiers are 64-bit integers; the bot only compares and forwards them. */
  datatype Project = Project(id: int, name: string)
  datatype Column = Column(id: int, name: string)
  datatype Card = Card(id: int, nodeId: string)
  datatype PullRequest = PullRequest(id: int, nodeId: string)
  datatype PullRequestEvent = PullRequestEvent(action: string, pr: PullRequest)

  /** What one call to the board service gives back: an answer, or a failure with its status code. */
  datatype Reply<+T> = Answer(value: T) | Failed(status: int)

  datatype Option<+T> = None | Some(value: T)

  /** Success or failure of a step of the bot's own logic. */
  datatype Result<+T, +E> = Success(value: T) | Failure(error: E)

  /** A call made to the board service, with the arguments the bot passes. */
  datatype Call =
    | ListProjects(owner: string, repo: string)
    | ListColumns(projectId: int)
    | ListCards(columnId: int)
    | CreateCard(columnId: int, contentId: int, contentType: string)
    | MoveCard(cardId: int, position: string, columnId: int)
  {
    /** Create and move change the board; the listings only read it. */
    predicate IsMutation() {
      CreateCard? || MoveCard?
    }
  }

  /** The number of calls in a trace that change the board. */
  function Mutations(calls: seq<Call>): (n: nat)
    ensures n <= |calls|
    ensures n == 0 <==> forall k :: 0 <= k < |calls| ==> !calls[k].IsMutation()
  {
    if calls == [] then 0
    else (if calls[0].IsMutation() then 1 else 0) + Mutations(calls[1..])
  }

  lemma {:induction false} MutationsAppend(a: seq<Call>, b: seq<Call>)
    ensures Mutations(a + b) == Mutations(a) + Mutations(b)
  {
    if a == [] {
      assert a + b == b;
    } else {
      assert (a + b)[1..] == a[1..] + b;
      MutationsAppend(a[1..], b);
    }
  }
}
