/** The order of a leaderboard: what ZREVRANGE lists and the ranks domain.Rank assigns. */
module Standings {
  import opened Domain

  type Entry = (Id, int)

  /** Redis lists higher scores first and, at equal scores, larger ids first. */
  predicate Precedes(a: Entry, b: Entry) {
    a.1 > b.1 || (a.1 == b.1 && a.0 > b.0)
  }

  predicate InOrder(rows: seq<Entry>) {
    forall i, j :: 0 <= i < j < |rows| ==> Precedes(rows[i], rows[j])
  }

  predicate FromScores(rows: seq<Entry>, scores: map<Id, int>) {
    forall i :: 0 <= i < |rows| ==> rows[i].0 in scores && scores[rows[i].0] == rows[i].1
  }

  predicate IsTop(scores: map<Id, int>, id: Id) {
    id in scores && forall other :: other in scores && other != id ==>
      Precedes((id, scores[id]), (other, scores[other]))
  }

  lemma {:induction false} TopExists(scores: map<Id, int>)
    requires scores != map[]
    ensures exists id :: IsTop(scores, id)
    decreases |scores|
  {
    var id :| id in scores;
    var rest := scores - {id};
    if rest == map[] {
      assert forall other :: other in scores && other != id ==> other in rest;
      assert IsTop(scores, id);
    } else {
      assert rest.Keys == scores.Keys - {id};
      assert |rest.Keys| < |scores.Keys|;
      TopExists(rest);
      var top :| IsTop(rest, top);
      var best := if Precedes((id, scores[id]), (top, scores[top])) then id else top;
      forall other | other in scores && other != best
        ensures Precedes((best, scores[best]), (other, scores[other]))
      {
        assert other == id || other in rest;
        assert rest[top] == scores[top];
      }
      assert IsTop(scores, best);
    }
  }

  /** ZREVRANGE 0 -1 WITHSCORES. */
  function RevRange(scores: map<Id, int>): (rows: seq<Entry>)
    decreases |scores|
  {
    if scores == map[] then []
    else
      TopExists(scores);
      var top :| IsTop(scores, top);
      [(top, scores[top])] + RevRange(scores - {top})
  }

  lemma FirstRow(scores: map<Id, int>) returns (top: Id)
    requires scores != map[]
    ensures IsTop(scores, top) && RevRange(scores) == [(top, scores[top])] + RevRange(scores - {top})
    ensures |scores - {top}| == |scores| - 1
  {
    TopExists(scores);
    top :| IsTop(scores, top) && RevRange(scores) == [(top, scores[top])] + RevRange(scores - {top});
  }

  /** The listing holds every key once, with its score, and is in order. */
  lemma {:induction false} Listed(scores: map<Id, int>)
    ensures |RevRange(scores)| == |scores|
    ensures FromScores(RevRange(scores), scores) && InOrder(RevRange(scores))
    decreases |scores|
  {
    if scores != map[] {
      var top := FirstRow(scores);
      Listed(scores - {top});
    }
  }

  lemma ListedIds(scores: map<Id, int>)
    ensures forall i, j :: 0 <= i < j < |RevRange(scores)| ==> RevRange(scores)[i].0 != RevRange(scores)[j].0
  {
    Listed(scores);
    var rows := RevRange(scores);
    forall i, j | 0 <= i < j < |rows|
      ensures rows[i].0 != rows[j].0
    {
      assert Precedes(rows[i], rows[j]);
    }
  }

  /** Every participant is listed. */
  lemma {:induction false} RevRangeCovers(scores: map<Id, int>, id: Id)
    requires id in scores
    ensures (id, scores[id]) in RevRange(scores)
    decreases |scores|
  {
    var top := FirstRow(scores);
    if id != top {
      RevRangeCovers(scores - {top}, id);
      assert (scores - {top})[id] == scores[id];
    }
  }

  /** The order leaves no choice: any complete ordered listing is the one Redis gives. */
  lemma {:induction false} OnlyListing(scores: map<Id, int>, rows: seq<Entry>)
    requires |rows| == |scores| && FromScores(rows, scores) && InOrder(rows)
    ensures rows == RevRange(scores)
    decreases |scores|
  {
    if scores != map[] {
      var top := FirstRow(scores);
      var k := Mentions(scores, rows, top);
      assert k > 0 ==> Precedes(rows[0], rows[k]);
      assert rows[0].0 == top;
      var rest := scores - {top};
      forall i | 0 <= i < |rows| - 1
        ensures rows[1..][i].0 in rest && rest[rows[1..][i].0] == rows[1..][i].1
      {
        assert Precedes(rows[0], rows[i + 1]);
      }
      OnlyListing(rest, rows[1..]);
    }
  }

  /** A listing without repeats that is as long as the map mentions every key. */
  lemma {:induction false} Mentions(scores: map<Id, int>, rows: seq<Entry>, id: Id) returns (k: nat)
    requires |rows| == |scores| && FromScores(rows, scores) && InOrder(rows)
    requires id in scores
    ensures k < |rows| && rows[k].0 == id
    decreases |rows|
  {
    var last := |rows| - 1;
    assert scores.Keys != {};
    assert |rows| > 0;
    if rows[last].0 == id {
      k := last;
    } else {
      var gone := rows[last].0;
      var rest := scores - {gone};
      assert rest.Keys == scores.Keys - {gone};
      assert |rest.Keys| == |scores.Keys| - 1;
      forall i | 0 <= i < last
        ensures rows[..last][i].0 in rest && rest[rows[..last][i].0] == rows[..last][i].1
      {
        assert Precedes(rows[i], rows[last]);
      }
      k := Mentions(rest, rows[..last], id);
    }
  }
}
