/**
 The rerank server's result rows (scripts/querit_openai_rerank_server.py) and the normaliser that
 puts them back in input order (scripts/querit_legacy_canary_equivalence.py).
 */
module ResponseNormalizer {
  import opened Foundations
  import opened Ranking

  /** A result row; a field of the wrong JSON type or a non-finite score makes it Malformed. */
  datatype Row =
    | Malformed
    | Row(index: Option<int>, documentIndex: Option<int>, score: Option<real>, relevanceScore: Option<real>)

  datatype Reason =
    | Unsupported | Cardinality | Shape | BadIndex | IndexRange | ScoreDomain | DuplicateIndex
    | MissingPosition | AliasesDisagree

  datatype Result = Success(scores: seq<real>) | Failure(reason: Reason)

  predicate HasIndex(row: Row) {
    row.Row? && (row.index.Some? || row.documentIndex.Some?)
  }

  predicate HasScore(row: Row) {
    row.Row? && (row.score.Some? || row.relevanceScore.Some?)
  }

  function IndexOf(row: Row): int
    requires HasIndex(row)
  {
    if row.index.Some? then row.index.value else row.documentIndex.value
  }

  function ScoreOf(row: Row): real
    requires HasScore(row)
  {
    if row.score.Some? then row.score.value else row.relevanceScore.value
  }

  /** Both spellings of a field, when both are there, say the same. */
  predicate AliasesAgree(row: Row) {
    && row.Row?
    && (row.index.Some? && row.documentIndex.Some? ==> row.index == row.documentIndex)
    && (row.score.Some? && row.relevanceScore.Some? ==> row.score == row.relevanceScore)
  }

  predicate RowAccepted(row: Row, count: nat) {
    && HasIndex(row) && HasScore(row) && AliasesAgree(row)
    && 0 <= IndexOf(row) < count
    && -1.0 <= ScoreOf(row) <= 1.0
  }

  /** A row is accepted when one position and one score account for all four of its fields. */
  lemma {:induction false} AcceptedRow(row: Row, count: nat)
    ensures RowAccepted(row, count) <==>
              exists k: int, x: real {:trigger Some(k), Some(x)} ::
                && 0 <= k < count && -1.0 <= x <= 1.0 && row.Row?
                && row.index in {None, Some(k)} && row.documentIndex in {None, Some(k)}
                && (row.index.Some? || row.documentIndex.Some?)
                && row.score in {None, Some(x)} && row.relevanceScore in {None, Some(x)}
                && (row.score.Some? || row.relevanceScore.Some?)
  {
    if RowAccepted(row, count) {
      var k, x := IndexOf(row), ScoreOf(row);
      assert row.index in {None, Some(k)} && row.score in {None, Some(x)};
    }
  }

  predicate RowsAccepted(rows: seq<Row>, count: nat) {
    && |rows| == count
    && (forall i :: 0 <= i < |rows| ==> RowAccepted(rows[i], count))
    && (forall i, j :: 0 <= i < j < |rows| ==> IndexOf(rows[i]) != IndexOf(rows[j]))
  }

  lemma {:induction false} DistinctSize(s: seq<int>)
    requires Distinct(s)
    ensures |set v | v in s| == |s|
    decreases |s|
  {
    if s != [] {
      var most, last := s[..|s| - 1], s[|s| - 1];
      DistinctSize(most);
      assert s == most + [last] && last !in most;
      assert (set v | v in s) == (set v | v in most) + {last};
    }
  }

  lemma {:induction false} SubsetOfSameSize(a: set<int>, b: set<int>)
    requires a <= b && |a| == |b|
    ensures a == b
  {
    assert b == a + (b - a);
    assert |b| == |a| + |b - a|;
  }

  /** n distinct positions below n leave none out. */
  lemma {:induction false} Pigeonhole(s: seq<int>, n: nat)
    requires |s| == n && Distinct(s) && forall i :: 0 <= i < n ==> 0 <= s[i] < n
    ensures forall v :: 0 <= v < n ==> v in s
  {
    var all, below := set v | v in s, set v | v in Range(n);
    DistinctSize(s);
    DistinctSize(Range(n));
    forall v | v in all ensures v in below {
      assert Range(n)[v] == v;
    }
    SubsetOfSameSize(all, below);
    forall v | 0 <= v < n ensures v in s {
      assert Range(n)[v] == v;
      assert v in below;
    }
  }

  /** The first objection to one row by itself. */
  function RowReason(row: Row, count: nat): (reason: Option<Reason>)
    ensures reason.None? <==> RowAccepted(row, count)
    ensures reason != Some(MissingPosition)
  {
    if row.Malformed? then Some(Shape)
    else if !HasIndex(row) || !HasScore(row) then Some(BadIndex)
    else if (row.index.Some? && row.documentIndex.Some? && row.index != row.documentIndex)
        || !(0 <= IndexOf(row) < count) then Some(IndexRange)
    else if (row.score.Some? && row.relevanceScore.Some? && row.score != row.relevanceScore)
        || !(-1.0 <= ScoreOf(row) <= 1.0) then Some(ScoreDomain)
    else None
  }

  /**
   parse_rows: accepted exactly when the rows are; then every row's score stands at its index. The
   missing-position error of the source is never reached.
   */
  method ParseRows(rows: seq<Row>, count: nat) returns (result: Result)
    ensures result.Success? <==> RowsAccepted(rows, count)
    ensures result.Success? ==> |result.scores| == count
    ensures result.Success? ==> forall i :: 0 <= i < |rows| ==> result.scores[IndexOf(rows[i])] == ScoreOf(rows[i])
    ensures result.Success? ==> Distinct(seq(|rows|, i requires 0 <= i < |rows| => IndexOf(rows[i])))
    ensures result != Failure(MissingPosition)
  {
    if |rows| != count {
      return Failure(Cardinality);
    }
    var restored: seq<Option<real>> := seq(count, _ => None);
    for k := 0 to |rows|
      invariant |restored| == count
      invariant forall i :: 0 <= i < k ==> RowAccepted(rows[i], count)
      invariant forall i, j :: 0 <= i < j < k ==> IndexOf(rows[i]) != IndexOf(rows[j])
      invariant forall i :: 0 <= i < k ==> restored[IndexOf(rows[i])] == Some(ScoreOf(rows[i]))
      invariant forall p :: 0 <= p < count && restored[p].Some? ==> exists i :: 0 <= i < k && IndexOf(rows[i]) == p
    {
      var row := rows[k];
      var reason := RowReason(row, count);
      if reason.Some? {
        return Failure(reason.value);
      }
      var index, score := IndexOf(row), ScoreOf(row);
      if restored[index].Some? {
        return Failure(DuplicateIndex);
      }
      restored := restored[index := Some(score)];
      assert IndexOf(rows[k]) == index;
    }
    ghost var indices := seq(|rows|, i requires 0 <= i < |rows| => IndexOf(rows[i]));
    Pigeonhole(indices, count);
    forall p | 0 <= p < count ensures restored[p].Some? {
      assert p in indices;
    }
    var missing := exists p :: 0 <= p < count && restored[p].None?;
    result := if missing then Failure(MissingPosition)
              else Success(seq(count, p requires 0 <= p < count =>
                     if restored[p].Some? then restored[p].value else 0.0));
  }

  /** The server's full result list for one ranking of the documents. */
  function Render(scores: seq<real>, ranked: seq<int>): (rows: seq<Row>)
    requires forall i :: 0 <= i < |ranked| ==> 0 <= ranked[i] < |scores|
    ensures |rows| == |ranked|
  {
    seq(|ranked|, i requires 0 <= i < |ranked| =>
      var k := ranked[i]; Row(Some(k), Some(k), Some(scores[k]), Some(scores[k])))
  }

  /** The rows stand in ranking order, each with its document's own score under both names. */
  lemma {:induction false} RenderedInOrder(scores: seq<real>, ranked: seq<int>)
    requires Sorted(scores, ranked)
    ensures var rows := Render(scores, ranked);
            && |rows| == |ranked|
            && (forall i :: 0 <= i < |rows| ==>
                  && rows[i].index == rows[i].documentIndex == Some(ranked[i])
                  && rows[i].score == rows[i].relevanceScore == Some(scores[ranked[i]]))
            && (forall i, j :: 0 <= i < j < |rows| ==>
                  rows[i].score.value > rows[j].score.value
                  || (rows[i].score == rows[j].score && rows[i].index.value < rows[j].index.value))
  {
    var rows := Render(scores, ranked);
    forall i, j | 0 <= i < j < |rows|
      ensures rows[i].score.value > rows[j].score.value
              || (rows[i].score == rows[j].score && rows[i].index.value < rows[j].index.value)
    {
      assert Before(scores, ranked[i], ranked[j]);
    }
  }

  datatype Response = Response(metadataValid: bool, results: Option<seq<Row>>, data: Option<seq<Row>>)

  /** Rows of the two lists for the same document carry the same score. */
  predicate ListsAgree(a: seq<Row>, b: seq<Row>, count: nat)
    requires RowsAccepted(a, count) && RowsAccepted(b, count)
  {
    forall i, j :: 0 <= i < count && 0 <= j < count && IndexOf(a[i]) == IndexOf(b[j]) ==> ScoreOf(a[i]) == ScoreOf(b[j])
  }

  predicate ResponseAccepted(response: Response, count: nat) {
    && response.metadataValid
    && (response.results.Some? || response.data.Some?)
    && (response.results.Some? ==> RowsAccepted(response.results.value, count))
    && (response.data.Some? ==> RowsAccepted(response.data.value, count))
    && (response.results.Some? && response.data.Some? ==>
          ListsAgree(response.results.value, response.data.value, count))
  }

  /** normalize_legacy_response: it succeeds exactly on accepted responses, with every score at its index. */
  method NormalizeLegacy(response: Response, count: nat) returns (result: Result)
    ensures result.Success? <==> ResponseAccepted(response, count)
    ensures result.Success? ==> |result.scores| == count
    ensures result.Success? && response.results.Some? ==>
              forall i :: 0 <= i < count ==>
                result.scores[IndexOf(response.results.value[i])] == ScoreOf(response.results.value[i])
    ensures result.Success? && response.data.Some? ==>
              forall i :: 0 <= i < count ==>
                result.scores[IndexOf(response.data.value[i])] == ScoreOf(response.data.value[i])
    ensures result != Failure(MissingPosition)
  {
    if !response.metadataValid || (response.results.None? && response.data.None?) {
      return Failure(Unsupported);
    }
    if response.results.Some? {
      var first := ParseRows(response.results.value, count);
      if first.Failure? {
        return first;
      }
      if response.data.Some? {
        var second := ParseRows(response.data.value, count);
        if second.Failure? {
          return second;
        }
        SameScoresIffAgree(response.results.value, response.data.value, count, first.scores, second.scores);
        if first.scores != second.scores {
          return Failure(AliasesDisagree);
        }
      }
      result := first;
    } else {
      result := ParseRows(response.data.value, count);
    }
  }

  predicate Restores(rows: seq<Row>, count: nat, scores: seq<real>)
    requires RowsAccepted(rows, count)
  {
    |scores| == count && forall i :: 0 <= i < count ==> scores[IndexOf(rows[i])] == ScoreOf(rows[i])
  }

  /** Every position is the index of some row. */
  lemma {:induction false} RowFor(rows: seq<Row>, count: nat, p: nat) returns (i: nat)
    requires RowsAccepted(rows, count) && p < count
    ensures i < count && IndexOf(rows[i]) == p
  {
    var indices := seq(count, i requires 0 <= i < count => IndexOf(rows[i]));
    Pigeonhole(indices, count);
    assert p in indices;
    i :| 0 <= i < count && indices[i] == p;
  }

  lemma {:induction false} SameScoresIffAgree(a: seq<Row>, b: seq<Row>, count: nat, first: seq<real>, second: seq<real>)
    requires RowsAccepted(a, count) && RowsAccepted(b, count) && Restores(a, count, first) && Restores(b, count, second)
    ensures first == second <==> ListsAgree(a, b, count)
  {
    if ListsAgree(a, b, count) {
      forall p | 0 <= p < count ensures first[p] == second[p] {
        var i := RowFor(a, count, p);
        var j := RowFor(b, count, p);
      }
    }
  }

  lemma {:induction false} SameRowsSameScores(rows: seq<Row>, count: nat, a: seq<real>, b: seq<real>)
    requires RowsAccepted(rows, count) && |a| == |b| == count
    requires forall i :: 0 <= i < count ==> a[IndexOf(rows[i])] == ScoreOf(rows[i])
    requires forall i :: 0 <= i < count ==> b[IndexOf(rows[i])] == ScoreOf(rows[i])
    ensures a == b
  {
    forall p | 0 <= p < count ensures a[p] == b[p] {
      var i := RowFor(rows, count, p);
    }
  }

  /** Normalising undoes ranking, whatever permutation the documents were ranked by. */
  method RoundTrip(scores: seq<real>, ranked: seq<int>) returns (result: Result)
    requires forall i :: 0 <= i < |scores| ==> -1.0 <= scores[i] <= 1.0
    requires |ranked| == |scores| && Distinct(ranked)
    requires forall i :: 0 <= i < |ranked| ==> 0 <= ranked[i] < |scores|
    ensures result == Success(scores)
  {
    var rows := Render(scores, ranked);
    result := NormalizeLegacy(Response(true, Some(rows), Some(rows)), |scores|);
    forall i | 0 <= i < |scores| ensures scores[IndexOf(rows[i])] == ScoreOf(rows[i]) {}
    SameRowsSameScores(rows, |scores|, result.scores, scores);
  }

  /** The server as it is: stable_rank, then every row rendered. */
  method ServerRoundTrip(scores: seq<real>) returns (result: Result)
    requires forall i :: 0 <= i < |scores| ==> -1.0 <= scores[i] <= 1.0
    ensures result == Success(scores)
  {
    StableOrderCovers(scores);
    result := RoundTrip(scores, StableOrder(scores));
  }

  /** top_n below the document count loses positions, and the normaliser refuses the response. */
  method TruncatedRoundTrip(scores: seq<real>, topN: nat) returns (result: Result)
    requires topN < |scores|
    ensures result.Failure?
  {
    StableOrderCovers(scores);
    var rows := Render(scores, StableOrder(scores)[..topN]);
    result := NormalizeLegacy(Response(true, Some(rows), Some(rows)), |scores|);
  }
}
