/**
  The webhook handler: from a delivered event and the board service's answers,
  the calls the bot makes and the HTTP status it writes.
 */
module Handler {
  import opened Board
  import opened ColumnResolution
  import opened CardSearch

  /**
    The board service's answers to the calls the handler can make: the
    project listing, the column listing of the first project, the card
    listing of each column (by column ID), and the answers to a card creation
    and to a card move.
   */
  datatype Api = Api(
    projects: Reply<seq<Project>>,
    columns: Reply<seq<Column>>,
    cardsIn: int -> Reply<seq<Card>>,
    created: Reply<()>,
    moved: Reply<()>)

  /** The status code written and the calls made, in order. */
  datatype Outcome = Outcome(status: int, calls: seq<Call>)

  /** What reaches the handler once signature checking and decoding are done. */
  datatype Delivery =
    | Unverified                               // the signature check rejected the payload
    | Unparseable                              // the payload could not be decoded into an event
    | PullRequestDelivery(event: PullRequestEvent)
    | OtherDelivery                            // an event of some other kind

  /** The handler reads the first listed project unconditionally, so an answered listing must hold one. */
  predicate ProjectsListed(api: Api) {
    api.projects.Answer? ==> |api.projects.value| > 0
  }

  /** The column listing answered and names all four workflow columns. */
  predicate ColumnsResolved(api: Api) {
    api.columns.Answer? && Complete(api.columns.value)
  }

  /** The resolved column table. */
  function ColumnTable(api: Api): (table: map<string, Column>)
    requires ColumnsResolved(api)
    ensures table.Keys == Required
  {
    TableMeaning(api.columns.value);
    Table(api.columns.value)
  }

  /** The cards of the four workflow columns, gathered in column order. */
  function Listings(api: Api): Gathered
    requires ColumnsResolved(api)
  {
    Gather(ColumnIds(ColumnTable(api)), api.cardsIn)
  }

  /** The event gets as far as the create-or-move decision: every lookup before it succeeded. */
  predicate ReachesDecision(ev: PullRequestEvent, api: Api)
    requires ProjectsListed(api)
  {
    && ev.action == "opened"
    && api.projects.Answer?
    && api.projects.value[0].name == PROJECT_NAME
    && ColumnsResolved(api)
    && Listings(api).cards.Answer?
  }

  /** The reconciliation of one pull-request event, step by step, each failure ending it. */
  function Reconcile(ev: PullRequestEvent, api: Api): Outcome
    requires ProjectsListed(api)
  {
    if ev.action != "opened" then Outcome(StatusAccepted, [])
    else if api.projects.Failed? then Outcome(StatusUnauthorized, [ListProjects(OWNER, REPO)])
    else if api.projects.value[0].name != PROJECT_NAME then Outcome(StatusUnauthorized, [ListProjects(OWNER, REPO)])
    else if !ColumnsResolved(api) then
      Outcome(StatusUnauthorized, [ListProjects(OWNER, REPO), ListColumns(api.projects.value[0].id)])
    else ReconcileCards(ev, api)
  }

  /** The calls made up to the decision: the project listing, the column listing, and the card listings. */
  function Lookups(api: Api): seq<Call>
    requires ProjectsListed(api) && api.projects.Answer? && ColumnsResolved(api)
  {
    [ListProjects(OWNER, REPO), ListColumns(api.projects.value[0].id)] + Listings(api).calls
  }

  /** Once the columns are resolved: gather their cards, then create or move the pull request's card. */
  function ReconcileCards(ev: PullRequestEvent, api: Api): Outcome
    requires ProjectsListed(api) && api.projects.Answer? && ColumnsResolved(api)
  {
    var gathered := Listings(api);
    if gathered.cards.Failed? then Outcome(gathered.cards.status, Lookups(api))
    else
      var cardID := FirstMatchId(gathered.cards.value, ev.pr.nodeId);
      var inReview := ColumnTable(api)[IN_REVIEW].id;
      if cardID == 0 then
        var status := if api.created.Failed? then api.created.status else StatusCreated;
        Outcome(status, Lookups(api) + [CreateCard(inReview, ev.pr.id, "PullRequest")])
      else
        var status := if api.moved.Failed? then api.moved.status else StatusCreated;
        Outcome(status, Lookups(api) + [MoveCard(cardID, "bottom", inReview)])
  }

  /** The handler's answer to a delivery. An event of another kind is left unanswered, which the HTTP server sends as 200. */
  function Respond(d: Delivery, api: Api): Outcome
    requires d.PullRequestDelivery? ==> ProjectsListed(api)
  {
    match d
    case Unverified => Outcome(StatusUnauthorized, [])
    case Unparseable => Outcome(StatusBadRequest, [])
    case PullRequestDelivery(ev) => Reconcile(ev, api)
    case OtherDelivery => Outcome(StatusOK, [])
  }

  /** Handle a pull-request event: look up the project, its columns and their cards, then create or move the card. */
  method HandlePullRequest(ev: PullRequestEvent, api: Api) returns (o: Outcome)
    requires ProjectsListed(api)
    ensures o == Reconcile(ev, api)
  {
    if ev.action != "opened" {
      return Outcome(StatusAccepted, []);
    }
    var pr := ev.pr;

    var calls := [ListProjects(OWNER, REPO)];
    if api.projects.Failed? {
      return Outcome(StatusUnauthorized, calls);
    }
    var project := api.projects.value[0];
    if project.name != PROJECT_NAME {
      return Outcome(StatusUnauthorized, calls);
    }

    calls := calls + [ListColumns(project.id)];
    var columns := GetColumns(api.columns);
    if columns.Failure? {
      return Outcome(StatusUnauthorized, calls);
    }
    var table := columns.value;
    assert ColumnsResolved(api) && table == ColumnTable(api);

    var gathered := CollectCards(table, api.cardsIn);
    calls := calls + gathered.calls;
    assert gathered == Listings(api) && calls == Lookups(api);
    if gathered.cards.Failed? {
      return Outcome(gathered.cards.status, calls);
    }
    assert Reconcile(ev, api) == ReconcileCards(ev, api);

    var cardID := FindCard(gathered.cards.value, pr.nodeId);

    // No tracking card found: create one in "In review".
    if cardID == 0 {
      calls := calls + [CreateCard(table[IN_REVIEW].id, pr.id, "PullRequest")];
      if api.created.Failed? {
        return Outcome(api.created.status, calls);
      }
      return Outcome(StatusCreated, calls);
    }

    // A tracking card exists: move it to the bottom of "In review".
    calls := calls + [MoveCard(cardID, "bottom", table[IN_REVIEW].id)];
    if api.moved.Failed? {
      return Outcome(api.moved.status, calls);
    }
    return Outcome(StatusCreated, calls);
  }

  /** Handle one webhook delivery. */
  method Handle(d: Delivery, api: Api) returns (o: Outcome)
    requires d.PullRequestDelivery? ==> ProjectsListed(api)
    ensures o == Respond(d, api)
  {
    match d {
      case Unverified =>
        o := Outcome(StatusUnauthorized, []);
      case Unparseable =>
        o := Outcome(StatusBadRequest, []);
      case PullRequestDelivery(ev) =>
        o := HandlePullRequest(ev, api);
      case OtherDelivery =>
        o := Outcome(StatusOK, []);
    }
  }

  /** Only an "opened" pull-request event touches the board; anything else is acknowledged without any call. */
  lemma OnlyOpenedIsHandled(d: Delivery, api: Api)
    requires d.PullRequestDelivery? ==> ProjectsListed(api)
    ensures Respond(d, api).calls != [] <==> d.PullRequestDelivery? && d.event.action == "opened"
    ensures d.PullRequestDelivery? && d.event.action != "opened" ==> Respond(d, api).status == StatusAccepted
  {
  }

  /** A first project not named "Sprint" is rejected before its columns are listed. */
  lemma ForeignProjectRejected(ev: PullRequestEvent, api: Api)
    requires ProjectsListed(api)
    requires ev.action == "opened" && api.projects.Answer? && api.projects.value[0].name != PROJECT_NAME
    ensures Reconcile(ev, api) == Outcome(StatusUnauthorized, [ListProjects(OWNER, REPO)])
  {
  }

  /** A failed column listing or a missing workflow column is rejected before any card is listed. */
  lemma UnresolvedColumnsRejected(ev: PullRequestEvent, api: Api)
    requires ProjectsListed(api)
    requires ev.action == "opened" && api.projects.Answer? && api.projects.value[0].name == PROJECT_NAME
    requires api.columns.Failed? || exists name :: name in Required && !Listed(api.columns.value, name)
    ensures Reconcile(ev, api) ==
              Outcome(StatusUnauthorized, [ListProjects(OWNER, REPO), ListColumns(api.projects.value[0].id)])
  {
  }

  /** A failed card listing ends the handling with that listing's status, and no later column is listed. */
  lemma CardListingFailurePropagates(ev: PullRequestEvent, api: Api, k: int)
    requires ProjectsListed(api)
    requires ev.action == "opened" && api.projects.Answer? && api.projects.value[0].name == PROJECT_NAME
    requires ColumnsResolved(api)
    requires FirstFailureAt(ColumnIds(ColumnTable(api)), api.cardsIn, k)
    ensures var ids := ColumnIds(ColumnTable(api));
            var o := Reconcile(ev, api);
            && o.status == api.cardsIn(ids[k]).status
            && |o.calls| == 3 + k
            && o.calls[2 + k] == ListCards(ids[k])
            && Mutations(o.calls) == 0
  {
    var ids := ColumnIds(ColumnTable(api));
    var g := Listings(api);
    GatherFailsAt(ids, api.cardsIn, k);
    var lookups := [ListProjects(OWNER, REPO), ListColumns(api.projects.value[0].id)];
    assert Reconcile(ev, api) == Outcome(g.cards.status, lookups + g.calls);
    ListingsAreReads(api);
    MutationsAppend(lookups, g.calls);
  }

  /** Every card listing only reads the board. */
  lemma {:induction false} ListingsAreReads(api: Api)
    requires ColumnsResolved(api)
    ensures Mutations(Listings(api).calls) == 0
  {
    var calls := Listings(api).calls;
    assert forall k :: 0 <= k < |calls| ==> calls[k].ListCards?;
  }

  /**
    Once every lookup succeeded, exactly one mutation is made, as the last call:
    a creation in "In review" when no card tracks the pull request (or the
    tracking card's ID is 0), otherwise a move of that card to the bottom of
    "In review". The status is 201 unless that mutation fails.
   */
  lemma ExactlyOneMutation(ev: PullRequestEvent, api: Api)
    requires ProjectsListed(api) && ReachesDecision(ev, api)
    ensures var o := Reconcile(ev, api);
            var cardID := FirstMatchId(Listings(api).cards.value, ev.pr.nodeId);
            var inReview := ColumnTable(api)[IN_REVIEW].id;
            var reply := if cardID == 0 then api.created else api.moved;
            && Mutations(o.calls) == 1
            && |Listings(api).calls| == 4
            && o.calls == [ListProjects(OWNER, REPO), ListColumns(api.projects.value[0].id)] + Listings(api).calls
                          + [if cardID == 0 then CreateCard(inReview, ev.pr.id, "PullRequest")
                             else MoveCard(cardID, "bottom", inReview)]
            && o.status == (if reply.Failed? then reply.status else StatusCreated)
  {
    var o := ReconcileCards(ev, api);
    assert Reconcile(ev, api) == o;
    var m := o.calls[|o.calls| - 1];
    assert o.calls == Lookups(api) + [m];
    ListingsAreReads(api);
    MutationsAppend([ListProjects(OWNER, REPO), ListColumns(api.projects.value[0].id)], Listings(api).calls);
    MutationsAppend(Lookups(api), [m]);
  }

  /** Without reaching the decision, no mutation is made; so a handled event makes at most one. */
  lemma NoMutationBeforeDecision(ev: PullRequestEvent, api: Api)
    requires ProjectsListed(api)
    ensures Mutations(Reconcile(ev, api).calls) == (if ReachesDecision(ev, api) then 1 else 0)
    ensures |Reconcile(ev, api).calls| <= 7
  {
    if ReachesDecision(ev, api) {
      ExactlyOneMutation(ev, api);
    } else if ev.action == "opened" && api.projects.Answer? && api.projects.value[0].name == PROJECT_NAME
              && ColumnsResolved(api) {
      var lookups := [ListProjects(OWNER, REPO), ListColumns(api.projects.value[0].id)];
      ListingsAreReads(api);
      MutationsAppend(lookups, Listings(api).calls);
    }
  }

  /** A card that tracks the pull request but has ID 0 is taken for no card: a second card is created. */
  lemma ZeroIdCardIsRecreated(ev: PullRequestEvent, api: Api, i: int)
    requires ProjectsListed(api) && ReachesDecision(ev, api)
    requires IsFirstMatch(Listings(api).cards.value, ev.pr.nodeId, i)
    requires Listings(api).cards.value[i].id == 0
    ensures Reconcile(ev, api).calls[|Reconcile(ev, api).calls| - 1] == CreateCard(ColumnTable(api)[IN_REVIEW].id, ev.pr.id, "PullRequest")
  {
    ExactlyOneMutation(ev, api);
  }

  /** The four workflow columns of the sample board, with IDs 10 to 13. */
  function SampleColumns(): seq<Column> {
    [Column(10, BACKLOG), Column(11, IN_PROGRESS), Column(12, IN_REVIEW), Column(13, PENDING_RELEASE)]
  }

  /** A board with the "Sprint" project and its four columns, whose backlog holds the given cards and the rest none. */
  function SampleApi(backlog: seq<Card>): Api {
    Api(Answer([Project(1, PROJECT_NAME)]), Answer(SampleColumns()),
        id => if id == 10 then Answer(backlog) else Answer([]),
        Answer(()), Answer(()))
  }

  /** The sample columns resolve, each name to the column listed with it. */
  lemma SampleTable()
    ensures Complete(SampleColumns())
    ensures Required <= Table(SampleColumns()).Keys
    ensures ColumnIds(Table(SampleColumns())) == [10, 11, 12, 13]
  {
    var columns := SampleColumns();
    assert |BACKLOG| == 7 && |IN_PROGRESS| == 11 && |IN_REVIEW| == 9 && |PENDING_RELEASE| == 15;
    LastListedWins(columns, 0);
    LastListedWins(columns, 1);
    LastListedWins(columns, 2);
    LastListedWins(columns, 3);
    TableMeaning(columns);
  }

  /** An opened pull request that no card tracks gets a new card in "In review", and the answer is 201. */
  lemma UntrackedPullRequestScenario()
    ensures Reconcile(PullRequestEvent("opened", PullRequest(7, "PR_1")), SampleApi([Card(554, "PR_0")])) ==
              Outcome(StatusCreated, [ListProjects(OWNER, REPO), ListColumns(1)]
                                     + [ListCards(10), ListCards(11), ListCards(12), ListCards(13)]
                                     + [CreateCard(12, 7, "PullRequest")])
  {
    var api := SampleApi([Card(554, "PR_0")]);
    var ev := PullRequestEvent("opened", PullRequest(7, "PR_1"));
    SampleTable();
    GatherInColumnOrder([10, 11, 12, 13], api.cardsIn);
    assert Listings(api).cards.value == [Card(554, "PR_0")];
    assert !HasMatch(Listings(api).cards.value, "PR_1");
    ExactlyOneMutation(ev, api);
    GatherCallsInColumnOrder([10, 11, 12, 13], api.cardsIn);
    assert ColumnTable(api)[IN_REVIEW].id == 12 && api.projects.value[0].id == 1;
    assert Reconcile(ev, api).calls ==
             [ListProjects(OWNER, REPO), ListColumns(1)] + [ListCards(10), ListCards(11), ListCards(12), ListCards(13)]
             + [CreateCard(12, 7, "PullRequest")];
  }

  /** An opened pull request tracked by card 555 in "Backlog" has that card moved to the bottom of "In review". */
  lemma TrackedPullRequestScenario()
    ensures Reconcile(PullRequestEvent("opened", PullRequest(8, "PR_2")), SampleApi([Card(555, "PR_2")])) ==
              Outcome(StatusCreated, [ListProjects(OWNER, REPO), ListColumns(1)]
                                     + [ListCards(10), ListCards(11), ListCards(12), ListCards(13)]
                                     + [MoveCard(555, "bottom", 12)])
  {
    var api := SampleApi([Card(555, "PR_2")]);
    var ev := PullRequestEvent("opened", PullRequest(8, "PR_2"));
    SampleTable();
    GatherInColumnOrder([10, 11, 12, 13], api.cardsIn);
    assert Listings(api).cards.value == [Card(555, "PR_2")];
    assert IsFirstMatch(Listings(api).cards.value, "PR_2", 0);
    ExactlyOneMutation(ev, api);
    GatherCallsInColumnOrder([10, 11, 12, 13], api.cardsIn);
    assert ColumnTable(api)[IN_REVIEW].id == 12 && api.projects.value[0].id == 1;
    assert Reconcile(ev, api).calls ==
             [ListProjects(OWNER, REPO), ListColumns(1)] + [ListCards(10), ListCards(11), ListCards(12), ListCards(13)]
             + [MoveCard(555, "bottom", 12)];
  }
}
