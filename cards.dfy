/**
  Card search: gather the cards of the four workflow columns, in column order,
  and find the card that already tracks a pull request.
 */
module CardSearch {
  import opened Board

  /** Some card in the list tracks this node. */
  predicate HasMatch(cards: seq<Card>, nodeId: string) {
    exists k :: 0 <= k < |cards| && cards[k].nodeId == nodeId
  }

  /** Position i holds the first card in the list that tracks this node. */
  predicate IsFirstMatch(cards: seq<Card>, nodeId: string, i: int) {
    0 <= i < |cards| && cards[i].nodeId == nodeId
    && forall j :: 0 <= j < i ==> cards[j].nodeId != nodeId
  }

  /**
    The ID of the first card that tracks the node, or the sentinel 0 when none
    does. A matching card whose own ID is 0 is therefore indistinguishable from
    no match at all.
   */
  function FirstMatchId(cards: seq<Card>, nodeId: string): (id: int)
    ensures !HasMatch(cards, nodeId) ==> id == 0
    ensures forall i :: IsFirstMatch(cards, nodeId, i) ==> id == cards[i].id
  {
    if cards == [] then 0
    else if cards[0].nodeId == nodeId then cards[0].id
    else
      var id := FirstMatchId(cards[1..], nodeId);
      assert forall i :: IsFirstMatch(cards, nodeId, i) ==> IsFirstMatch(cards[1..], nodeId, i - 1);
      id
  }

  /** Scan the gathered cards and stop at the first that tracks the node. */
  method FindCard(cards: seq<Card>, nodeId: string) returns (cardID: int)
    ensures cardID == FirstMatchId(cards, nodeId)
  {
    cardID := 0;
    for i := 0 to |cards|
      invariant cardID == 0
      invariant forall j :: 0 <= j < i ==> cards[j].nodeId != nodeId
    {
      if cards[i].nodeId == nodeId {
        assert IsFirstMatch(cards, nodeId, i);
        cardID := cards[i].id;
        break;
      }
    }
  }

  /** Searching a concatenation searches the first part, and the second only if the first has no match. */
  lemma {:induction false} FirstMatchIdAppend(a: seq<Card>, b: seq<Card>, nodeId: string)
    ensures FirstMatchId(a + b, nodeId) ==
              if HasMatch(a, nodeId) then FirstMatchId(a, nodeId) else FirstMatchId(b, nodeId)
  {
    if a == [] {
      assert a + b == b;
    } else {
      assert (a + b)[1..] == a[1..] + b;
      FirstMatchIdAppend(a[1..], b, nodeId);
      if a[0].nodeId != nodeId {
        assert HasMatch(a, nodeId) <==> HasMatch(a[1..], nodeId) by {
          if HasMatch(a, nodeId) {
            var k :| 0 <= k < |a| && a[k].nodeId == nodeId;
            assert a[1..][k - 1].nodeId == nodeId;
          }
          if HasMatch(a[1..], nodeId) {
            var k :| 0 <= k < |a[1..]| && a[1..][k].nodeId == nodeId;
            assert a[k + 1].nodeId == nodeId;
          }
        }
      }
    }
  }

  /** The cards gathered so far, or the failed listing that stopped the gathering, with the listing calls made. */
  datatype Gathered = Gathered(cards: Reply<seq<Card>>, calls: seq<Call>)

  /**
    List the cards of each column in turn and concatenate them; the first
    listing that fails ends the gathering with that failure.
   */
  function Gather(ids: seq<int>, cardsIn: int -> Reply<seq<Card>>): (g: Gathered)
    ensures |g.calls| <= |ids|
    ensures forall k :: 0 <= k < |g.calls| ==> g.calls[k] == ListCards(ids[k])
    ensures g.cards.Answer? <==> forall k :: 0 <= k < |ids| ==> cardsIn(ids[k]).Answer?
    ensures g.cards.Answer? ==> |g.calls| == |ids|
    ensures g.cards.Failed? ==>
              && 0 < |g.calls|
              && g.cards == cardsIn(ids[|g.calls| - 1])
              && forall k :: 0 <= k < |g.calls| - 1 ==> cardsIn(ids[k]).Answer?
  {
    if ids == [] then Gathered(Answer([]), [])
    else
      var earlier := ids[..|ids| - 1];
      var id := ids[|ids| - 1];
      var g := Gather(earlier, cardsIn);
      assert forall k :: 0 <= k < |earlier| ==> earlier[k] == ids[k];
      if g.cards.Failed? then g
      else match cardsIn(id)
        case Failed(status) => Gathered(Failed(status), g.calls + [ListCards(id)])
        case Answer(more) => Gathered(Answer(g.cards.value + more), g.calls + [ListCards(id)])
  }

  /** Once a prefix of the columns has failed, the later columns are never listed. */
  lemma {:induction false} GatherStopsAtFailure(ids: seq<int>, k: nat, cardsIn: int -> Reply<seq<Card>>)
    requires k <= |ids| && Gather(ids[..k], cardsIn).cards.Failed?
    ensures Gather(ids, cardsIn) == Gather(ids[..k], cardsIn)
  {
    if k < |ids| {
      var earlier := ids[..|ids| - 1];
      assert earlier[..k] == ids[..k];
      GatherStopsAtFailure(earlier, k, cardsIn);
    } else {
      assert ids[..k] == ids;
    }
  }

  /** The listing of column k is the first to fail. */
  predicate FirstFailureAt(ids: seq<int>, cardsIn: int -> Reply<seq<Card>>, k: int) {
    0 <= k < |ids| && cardsIn(ids[k]).Failed? && forall c :: 0 <= c < k ==> cardsIn(ids[c]).Answer?
  }

  /** The first failing listing decides the failure: it is the last call made. */
  lemma GatherFailsAt(ids: seq<int>, cardsIn: int -> Reply<seq<Card>>, k: int)
    requires FirstFailureAt(ids, cardsIn, k)
    ensures Gather(ids, cardsIn).cards == cardsIn(ids[k])
    ensures |Gather(ids, cardsIn).calls| == k + 1
  {
  }

  /** The gathered cards are the four columns' cards, concatenated in column order. */
  lemma GatherInColumnOrder(ids: seq<int>, cardsIn: int -> Reply<seq<Card>>)
    requires |ids| == 4
    requires forall k :: 0 <= k < 4 ==> cardsIn(ids[k]).Answer?
    ensures Gather(ids, cardsIn).cards ==
              Answer(cardsIn(ids[0]).value + cardsIn(ids[1]).value + cardsIn(ids[2]).value + cardsIn(ids[3]).value)
  {
    assert ids[..3][..2] == ids[..2];
    assert ids[..2][..1] == ids[..1];
    assert ids[..1][..0] == [] && ids[..1][0] == ids[0];
    assert [] + cardsIn(ids[0]).value == cardsIn(ids[0]).value;
    assert Gather(ids[..1], cardsIn).cards == Answer(cardsIn(ids[0]).value);
    assert Gather(ids[..2], cardsIn).cards == Answer(cardsIn(ids[0]).value + cardsIn(ids[1]).value);
    assert Gather(ids[..3], cardsIn).cards ==
             Answer(cardsIn(ids[0]).value + cardsIn(ids[1]).value + cardsIn(ids[2]).value);
  }

  /** A gathering that succeeds lists the four columns once each, in column order. */
  lemma GatherCallsInColumnOrder(ids: seq<int>, cardsIn: int -> Reply<seq<Card>>)
    requires |ids| == 4 && Gather(ids, cardsIn).cards.Answer?
    ensures Gather(ids, cardsIn).calls == [ListCards(ids[0]), ListCards(ids[1]), ListCards(ids[2]), ListCards(ids[3])]
  {
  }

  /** The IDs of the four workflow columns, in gathering order. */
  function ColumnIds(table: map<string, Column>): seq<int>
    requires Required <= table.Keys
  {
    [table[BACKLOG].id, table[IN_PROGRESS].id, table[IN_REVIEW].id, table[PENDING_RELEASE].id]
  }

  /** List the cards of each workflow column in turn, appending each listing to the cards gathered so far. */
  method CollectCards(table: map<string, Column>, cardsIn: int -> Reply<seq<Card>>) returns (g: Gathered)
    requires Required <= table.Keys
    ensures g == Gather(ColumnIds(table), cardsIn)
  {
    var ids := ColumnIds(table);
    var cards: seq<Card> := [];
    var calls: seq<Call> := [];
    for i := 0 to |AllColumns|
      invariant Gather(ids[..i], cardsIn) == Gathered(Answer(cards), calls)
    {
      assert ids[..i + 1][..i] == ids[..i];
      var id := table[AllColumns[i]].id;
      assert id == ids[i];
      calls := calls + [ListCards(id)];
      var reply := cardsIn(id);
      if reply.Failed? {
        GatherStopsAtFailure(ids, i + 1, cardsIn);
        return Gathered(reply, calls);
      }
      cards := cards + reply.value;
    }
    assert ids[..|AllColumns|] == ids;
    g := Gathered(Answer(cards), calls);
  }

  /** The card found is the first match in the earliest column whose listing has one. */
  lemma EarliestColumnWins(ids: seq<int>, cardsIn: int -> Reply<seq<Card>>, nodeId: string, k: int)
    requires |ids| == 4 && 0 <= k < 4
    requires forall c :: 0 <= c < 4 ==> cardsIn(ids[c]).Answer?
    requires HasMatch(cardsIn(ids[k]).value, nodeId)
    requires forall c :: 0 <= c < k ==> !HasMatch(cardsIn(ids[c]).value, nodeId)
    ensures FirstMatchId(Gather(ids, cardsIn).cards.value, nodeId) == FirstMatchId(cardsIn(ids[k]).value, nodeId)
  {
    GatherInColumnOrder(ids, cardsIn);
    var c0, c1, c2, c3 := cardsIn(ids[0]).value, cardsIn(ids[1]).value, cardsIn(ids[2]).value, cardsIn(ids[3]).value;
    assert Gather(ids, cardsIn).cards.value == c0 + (c1 + (c2 + c3));
    FirstMatchIdAppend(c0, c1 + (c2 + c3), nodeId);
    if k > 0 {
      assert !HasMatch(c0, nodeId);
      FirstMatchIdAppend(c1, c2 + c3, nodeId);
      if k > 1 {
        assert !HasMatch(c1, nodeId);
        FirstMatchIdAppend(c2, c3, nodeId);
        if k > 2 {
          assert !HasMatch(c2, nodeId);
        }
      }
    }
  }
}
