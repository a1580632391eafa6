# project-bot: card reconciliation, modelled in Dafny

project-bot is a webhook receiver for a GitHub repository. When a pull request
is opened, it finds the repository's "Sprint" project board. It resolves the
board's four workflow columns (Backlog, In progress, In review, Pending
release) and lists every card in them. If a card already tracks the pull
request, the bot moves that card to the bottom of "In review". Otherwise it
creates a new card for the pull request in "In review". The HTTP status it
writes reports the outcome.

The model covers that decision, with the board service's answers given as data:

- `Board` (board.dfy) holds the fixed names and the entities. It also holds
  `Reply`, which is one remote answer or a failure carrying its status code,
  and `Call`, which records one call the bot makes to the board service.
- `ColumnResolution` (columns.dfy) models `getColumns`. The method `GetColumns`
  keeps both of the source's loops: the loop that fills the table, and the scan
  that stops at the first missing column. The scan picks the next name with
  `:|` because Go's map iteration order is unspecified. `LastNamed` and `Table`
  describe the result, and the lemmas prove what it means.
- `CardSearch` (cards.dfy) models the card-gathering loop (`CollectCards`,
  described by `Gather`) and the first-match search with `break` (`FindCard`,
  described by `FirstMatchId`).
- `Handler` (handler.dfy) models the pull-request branch of `handler`.
  `HandlePullRequest` is imperative and follows the source's early returns.
  `Reconcile` is the matching pure specification. An `Outcome` holds the status
  written and the ordered list of calls made. That list is what lets the lemmas
  say "no card call", "before any mutation" and "exactly one mutation".

Where the design text and the code disagree, the model follows the code:

- The comments at pkg/main.go:135 and pkg/main.go:150 describe the two branches
  the wrong way round. The code creates a card when none is found and moves the
  card it found.
- An event of an unrecognised kind is not answered explicitly (pkg/main.go:162-164).
  Go's HTTP server then sends 200, so the model answers 200 with no calls.
- A matching card whose ID is 0 counts as no match, because 0 is the "not found"
  value (pkg/main.go:127, 136). A second card is then created (`ZeroIdCardIsRecreated`).
- When a workflow name is listed more than once, the last column with that name
  wins (pkg/main.go:46).

The model compares a card's node identifier with the pull request's node
identifier, as the code does. It does not say which identifiers the remote
service actually gives cards.

## Model

| member | source | states |
|---|---|---|
| `ColumnResolution.GetColumns` | pkg/main.go:32-55 | A failed column listing returns that failure. Otherwise resolution succeeds exactly when all four workflow names are listed. On success the table has exactly those four keys, each bound to the last listed column with that name. On failure the error names a required column that is not listed. |
| `ColumnResolution.LastNamedMeaning` | pkg/main.go:43-48 | A name resolves exactly when some listed column has it. It resolves to a listed column with that name, and no later column has the same name. |
| `ColumnResolution.LastListedWins` | pkg/main.go:43-48 | The last listed column with a given workflow name is the one the table keeps for that name. |
| `ColumnResolution.LastNamedIgnoresOthers` | pkg/main.go:43-48 | Removing the columns whose names are not workflow names does not change what any workflow name resolves to. |
| `ColumnResolution.OtherColumnsIgnored` | pkg/main.go:43-53 | Columns with other names change neither whether resolution succeeds nor the resulting table. |
| `ColumnResolution.TableMeaning` | pkg/main.go:33-54 | The table's keys are among the four names. All four are keys exactly when all four are listed. Each key is bound to a listed column with that name. |
| `CardSearch.FirstMatchId` | pkg/main.go:126-133 | With no card for the node, the result is 0. Otherwise it is the ID of the first card for the node. |
| `CardSearch.FindCard` | pkg/main.go:126-133 | The search loop with `break` returns exactly `FirstMatchId` of the gathered cards. |
| `CardSearch.FirstMatchIdAppend` | pkg/main.go:123-133 | Searching a concatenation searches the first part. It searches the second part only when the first part has no match. |
| `CardSearch.Gather` | pkg/main.go:114-124 | The calls made are listings of the columns in order, one each, up to and including the first one that fails. The gathering succeeds exactly when every listing answers. A failure is the first failing listing's own reply. |
| `CardSearch.CollectCards` | pkg/main.go:114-124 | The loop over the four columns gives exactly `Gather` of their IDs in Backlog, In progress, In review, Pending release order. |
| `CardSearch.GatherStopsAtFailure` | pkg/main.go:118-122 | After a listing fails, no later column is listed and the result does not change. |
| `CardSearch.GatherFailsAt` | pkg/main.go:116-122 | When listing k is the first to fail, the gathering fails with that reply after exactly k+1 calls. |
| `CardSearch.GatherInColumnOrder` | pkg/main.go:115-124 | When all four listings answer, the gathered cards are the four lists concatenated in column order. |
| `CardSearch.GatherCallsInColumnOrder` | pkg/main.go:116-117 | A successful gathering lists each of the four columns once, in column order. |
| `CardSearch.EarliestColumnWins` | pkg/main.go:115-133 | The card found is the first match in the earliest column whose listing has a match. |
| `Handler.HandlePullRequest` | pkg/main.go:83-161 | The imperative handler computes exactly the outcome `Reconcile` specifies: the same status and the same calls in the same order. |
| `Handler.Handle` | pkg/main.go:57-165 | A rejected signature gives 401 and an undecodable payload gives 400, both with no calls. A pull-request event is reconciled. An event of another kind gives 200 with no calls. |
| `Handler.OnlyOpenedIsHandled` | pkg/main.go:85-88 | The board service is called exactly for an "opened" pull-request event. Any other pull-request action gives 202. |
| `Handler.ForeignProjectRejected` | pkg/main.go:93-103 | If the first project is not named "Sprint", the result is 401 after only the project listing. |
| `Handler.UnresolvedColumnsRejected` | pkg/main.go:106-112 | A failed column listing or a missing workflow column gives 401. Only the project and column listings are called: no card listing and no mutation. |
| `Handler.CardListingFailurePropagates` | pkg/main.go:114-124 | When listing k is the first to fail, the result is that listing's status. Listing k is the last call, and no mutation is made. |
| `Handler.ExactlyOneMutation` | pkg/main.go:135-160 | Once every lookup succeeds, exactly one mutation follows the lookups. If the search returned 0, it creates a card in "In review" for the pull request with content type "PullRequest". Otherwise it moves the found card to the bottom of "In review". The status is 201 unless that mutation fails, and then it is the mutation's status. |
| `Handler.NoMutationBeforeDecision` | pkg/main.go:84-161 | The number of mutations is 1 if the decision is reached and 0 otherwise. At most seven calls are made. |
| `Handler.ZeroIdCardIsRecreated` | pkg/main.go:127-137 | If the first card for the pull request has ID 0, a new card is created instead of that card being moved. |
| `Handler.UntrackedPullRequestScenario` | pkg/main.go:136-147 | Sample board with no card for "PR_1": the four columns are listed, a card for pull request 7 is created in "In review" (column 12), and the status is 201. |
| `Handler.TrackedPullRequestScenario` | pkg/main.go:150-160 | Sample board where card 555 in Backlog tracks "PR_2": that card is moved to the bottom of "In review" (column 12), and the status is 201. |

## Left out

- Signature validation and payload decoding (pkg/main.go:59-73) are library code. Only their outcomes appear, as `Delivery` cases answered with 401 and 400.
- Building the OAuth2 client and every remote call (pkg/main.go:76-81, 93, 117, 137, 151) are remote I/O. Their answers are the fields of `Api`, and their failures are `Failed(status)`.
- The create and move answers are one fixed reply each, whatever the arguments. The arguments themselves are recorded in the call list.
- Each listing answer stands for the single page that go-github returns when called with no options. Pagination is not modelled.
- Error message bodies and logging are not modelled. The one exception is the missing column's name, which `GetColumns` returns.
- Environment variables, the health check, routing and CORS headers (pkg/main.go:27, 59, 168-195) are configuration and I/O.
- Two concurrent webhooks for the same pull request can both create a card. This race is a concurrency property, so it is outside this sequential model.
- Go panics are not reproduced. Indexing an empty project list (pkg/main.go:99) is excluded by the precondition `ProjectsListed`. A failed call with no HTTP response (pkg/main.go:120, 143, 157) is not representable, because every failed reply carries a status.
- Remote IDs are 64-bit in the source and unbounded integers here. The bot only compares and forwards them, so no arithmetic is affected.
- The pull request's title is used only in log lines and is not modelled.
