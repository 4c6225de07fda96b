/**
 The replay producer (scripts/querit_replay_runtime.py, scripts/querit_offline_replay.py) and the
 checker that derives the same fields again (scripts/querit_replay_schema.py).

 A digest stands for the content it is taken of, an encoding ID for its (case, track) pair, an
 observation ID for its number, and float32 bits for the number they hold.
 */
module ReplayContract {
  import opened Foundations
  import opened Ranking

  const POSTPROCESSOR: int := 151643
  const TERMINAL_ANCHOR: int := 151665
  const MAX_TOKEN_COUNT: int := 40960
  const EXPECTED_ENCODING_COUNT: nat := 80
  const EXPECTED_OBSERVATION_COUNT: nat := 680

  type CaseId = string

  datatype Track = Legacy | Candidate

  datatype EncodingId = EncodingId(caseId: CaseId, track: Track)

  function Terminal(track: Track): int {
    if track == Legacy then POSTPROCESSOR else TERMINAL_ANCHOR
  }

  function TerminalString(track: Track): string {
    if track == Legacy then "<|im_end|>" else "[CLS]"
  }

  function Maximum(track: Track): int {
    if track == Legacy then 40960 else 40959
  }

  // ----- encodings -----

  datatype Encoding = Encoding(
    encodingId: EncodingId, caseId: CaseId, track: Track,
    inputIds: seq<int>, mask: seq<int>, attentionLength: int,
    idsDigest: seq<int>, maskDigest: seq<int>, prefixDigest: Option<seq<int>>,
    preCount: int, dropped: int, terminalId: int, terminalString: string,
    lastIndex: int, lastId: int, anchors: int)

  function Ones(n: nat): (r: seq<int>)
    ensures |r| == n && forall i :: 0 <= i < n ==> r[i] == 1
  {
    seq(n, _ => 1)
  }

  function CountOf(s: seq<int>, x: int): nat {
    if s == [] then 0 else CountOf(s[..|s| - 1], x) + (if s[|s| - 1] == x then 1 else 0)
  }

  /** What token_ids_sha256 takes; it raises on any other number. */
  predicate TokenIds(ids: seq<int>) {
    forall i :: 0 <= i < |ids| ==> 0 <= ids[i] <= 0xFFFF_FFFF
  }

  /** make_encoding_record, in both of its copies; None is their error. */
  function MakeEncoding(caseId: CaseId, track: Track, ids: seq<int>, preCount: int): Option<Encoding> {
    var expected := Min(preCount, Maximum(track)) + (if track == Candidate then 1 else 0);
    if |ids| != expected || ids == [] || ids[|ids| - 1] != Terminal(track) || !TokenIds(ids) then None
    else
      var prefix := ids[..|ids| - 1];
      Some(Encoding(
             EncodingId(caseId, track), caseId, track,
             ids, Ones(|ids|), |ids|,
             ids, Ones(|ids|), if track == Candidate then Some(prefix) else None,
             preCount, Max(0, preCount - Maximum(track)), Terminal(track), TerminalString(track),
             |ids| - 1, ids[|ids| - 1], CountOf(if track == Legacy then ids else prefix, TERMINAL_ANCHOR)))
  }

  /** LocalQueritRuntime.encode, for what the tokenizer returns without and with truncation. */
  function Encode(caseId: CaseId, track: Track, full: seq<int>, packed: seq<int>): Option<Encoding> {
    if packed == [] || packed[|packed| - 1] != POSTPROCESSOR then None
    else MakeEncoding(caseId, track, if track == Candidate then packed + [TERMINAL_ANCHOR] else packed, |full|)
  }

  /** The conditions _validate_encoding_records puts on one record. */
  predicate EncodingOk(e: Encoding) {
    && e.encodingId == EncodingId(e.caseId, e.track)
    && e.inputIds != [] && |e.inputIds| <= MAX_TOKEN_COUNT && |e.mask| == |e.inputIds|
    && e.attentionLength == |e.mask| && (forall i :: 0 <= i < |e.mask| ==> e.mask[i] == 1)
    && TokenIds(e.inputIds) && e.idsDigest == e.inputIds && e.maskDigest == e.mask
    && e.preCount > 0
    && |e.inputIds| == (if e.track == Legacy then Min(e.preCount, 40960) else Min(e.preCount, 40959) + 1)
    && e.dropped == Max(0, e.preCount - (if e.track == Legacy then 40960 else 40959))
    && e.inputIds[|e.inputIds| - 1] == Terminal(e.track) && e.terminalId == Terminal(e.track)
    && e.terminalString == TerminalString(e.track)
    && e.lastIndex == |e.inputIds| - 1 && e.lastId == e.inputIds[|e.inputIds| - 1]
    && e.anchors == CountOf(if e.track == Legacy then e.inputIds else e.inputIds[..|e.inputIds| - 1], TERMINAL_ANCHOR)
    && e.prefixDigest == (if e.track == Candidate then Some(e.inputIds[..|e.inputIds| - 1]) else None)
  }

  /** The checker accepts exactly what the maker makes of a nonempty prompt. */
  lemma {:induction false} AcceptedIffMade(e: Encoding)
    ensures EncodingOk(e) <==> e.preCount > 0 && MakeEncoding(e.caseId, e.track, e.inputIds, e.preCount) == Some(e)
  {
    if EncodingOk(e) {
      assert e.mask == Ones(|e.inputIds|);
    }
  }

  /** When the runtime encodes: by the postprocessor's last ID, the length truncation gives, and uint32 IDs. */
  lemma {:induction false} EncodeAccepts(caseId: CaseId, track: Track, full: seq<int>, packed: seq<int>)
    ensures Encode(caseId, track, full, packed).Some? <==>
              && packed != [] && packed[|packed| - 1] == 151643
              && |packed| == Min(|full|, if track == Legacy then 40960 else 40959)
              && forall i :: 0 <= i < |packed| ==> 0 <= packed[i] <= 0xFFFF_FFFF
    ensures Encode(caseId, track, full, packed).Some? ==>
              var ids := if track == Legacy then packed else packed + [151665];
              && Encode(caseId, track, full, packed).value.inputIds == ids
              && Encode(caseId, track, full, packed).value.preCount == |full|
  {
    var ids := packed + [TERMINAL_ANCHOR];
    assert ids[|ids| - 1] == TERMINAL_ANCHOR && forall i :: 0 <= i < |packed| ==> ids[i] == packed[i];
    if track == Candidate && TokenIds(packed) {
      assert TokenIds(ids);
    }
  }

  /** Everything the runtime encodes passes, whatever the tokenizer returns. */
  lemma {:induction false} EncodedPasses(caseId: CaseId, track: Track, full: seq<int>, packed: seq<int>)
    requires Encode(caseId, track, full, packed).Some?
    ensures EncodingOk(Encode(caseId, track, full, packed).value)
    ensures Encode(caseId, track, full, packed).value.encodingId == EncodingId(caseId, track)
  {
    AcceptedIffMade(Encode(caseId, track, full, packed).value);
  }

  /** The maker alone does not refuse an empty prompt on the candidate track; the checker does. */
  lemma {:induction false} EmptyPromptIsRefused(caseId: CaseId)
    ensures MakeEncoding(caseId, Candidate, [TERMINAL_ANCHOR], 0).Some?
    ensures !EncodingOk(MakeEncoding(caseId, Candidate, [TERMINAL_ANCHOR], 0).value)
  {
    AcceptedIffMade(MakeEncoding(caseId, Candidate, [TERMINAL_ANCHOR], 0).value);
  }

  /** The first n records are right and none repeats. */
  predicate ValidUpTo(records: seq<Encoding>, cases: set<CaseId>, n: nat)
    requires n <= |records|
  {
    && (forall i :: 0 <= i < n ==> records[i].caseId in cases && EncodingOk(records[i]))
    && (forall i, j :: 0 <= i < j < n ==> records[i].encodingId != records[j].encodingId)
  }

  /** byId holds the first n records under their IDs and nothing else. */
  ghost predicate Indexed(byId: map<EncodingId, Encoding>, records: seq<Encoding>, n: nat)
    requires n <= |records|
  {
    && (forall i :: 0 <= i < n ==> records[i].encodingId in byId && byId[records[i].encodingId] == records[i])
    && (forall id :: id in byId ==> exists i :: 0 <= i < n && records[i].encodingId == id && byId[id] == records[i])
  }

  /** The check of one record by itself. */
  function EncodingChecker(cases: set<CaseId>): Encoding -> bool {
    (e: Encoding) => e.caseId in cases && EncodingOk(e)
  }

  /** The first n records under their IDs, later ones over earlier ones. */
  function ById(records: seq<Encoding>, n: nat): map<EncodingId, Encoding>
    requires n <= |records|
  {
    if n == 0 then map[] else ById(records, n - 1)[records[n - 1].encodingId := records[n - 1]]
  }

  /** The first n records are taken one after another. */
  predicate TakenUpTo(right: Encoding -> bool, records: seq<Encoding>, n: nat)
    requires n <= |records|
  {
    n == 0 || (&& TakenUpTo(right, records, n - 1) && right(records[n - 1])
               && records[n - 1].encodingId !in ById(records, n - 1))
  }

  lemma {:induction false} IdIsEarlier(records: seq<Encoding>, n: nat, id: EncodingId)
    requires n <= |records| && id in ById(records, n)
    ensures exists i :: 0 <= i < n && records[i].encodingId == id && ById(records, n)[id] == records[i]
  {
    if records[n - 1].encodingId == id {
      assert records[n - 1].encodingId == id;
    } else {
      IdIsEarlier(records, n - 1, id);
    }
  }

  lemma {:induction false} TakenAt(right: Encoding -> bool, records: seq<Encoding>, n: nat, i: nat)
    requires i < n <= |records| && TakenUpTo(right, records, n)
    ensures right(records[i]) && records[i].encodingId in ById(records, n)
    ensures ById(records, n)[records[i].encodingId] == records[i]
  {
    if i < n - 1 {
      TakenAt(right, records, n - 1, i);
    }
  }

  /** What is taken is indexed. */
  lemma {:induction false} TakenIsIndexed(right: Encoding -> bool, records: seq<Encoding>, n: nat)
    requires n <= |records| && TakenUpTo(right, records, n)
    ensures Indexed(ById(records, n), records, n)
  {
    forall id | id in ById(records, n)
      ensures exists i :: 0 <= i < n && records[i].encodingId == id && ById(records, n)[id] == records[i]
    {
      IdIsEarlier(records, n, id);
    }
    forall i | 0 <= i < n
      ensures records[i].encodingId in ById(records, n) && ById(records, n)[records[i].encodingId] == records[i]
    {
      TakenAt(right, records, n, i);
    }
  }

  /** No two of what is taken share an ID. */
  lemma {:induction false} TakenDiffer(right: Encoding -> bool, records: seq<Encoding>, n: nat, i: nat, j: nat)
    requires i < j < n <= |records| && TakenUpTo(right, records, n)
    ensures records[i].encodingId != records[j].encodingId
  {
    if j < n - 1 {
      TakenDiffer(right, records, n - 1, i, j);
    } else {
      TakenAt(right, records, n - 1, i);
    }
  }

  lemma {:induction false} TakenIsValid(records: seq<Encoding>, cases: set<CaseId>)
    requires TakenUpTo(EncodingChecker(cases), records, |records|)
    ensures ValidUpTo(records, cases, |records|)
  {
    forall i, j | 0 <= i < j < |records| ensures records[i].encodingId != records[j].encodingId {
      TakenDiffer(EncodingChecker(cases), records, |records|, i, j);
    }
    forall i | 0 <= i < |records| ensures records[i].caseId in cases && EncodingOk(records[i]) {
      TakenAt(EncodingChecker(cases), records, |records|, i);
    }
  }

  lemma {:induction false} RefusedRightly(records: seq<Encoding>, cases: set<CaseId>, n: nat)
    requires n < |records| && (!EncodingChecker(cases)(records[n]) || records[n].encodingId in ById(records, n))
    ensures !ValidUpTo(records, cases, |records|)
  {
    if records[n].encodingId in ById(records, n) {
      IdIsEarlier(records, n, records[n].encodingId);
    }
  }

  lemma {:induction false} IndexedIsSound(byId: map<EncodingId, Encoding>, records: seq<Encoding>, cases: set<CaseId>)
    requires Indexed(byId, records, |records|) && ValidUpTo(records, cases, |records|)
    ensures Sound(byId, cases)
  {
    forall id | id in byId ensures EncodingOk(byId[id]) && byId[id].encodingId == id && id.caseId in cases {
      var i :| 0 <= i < |records| && records[i].encodingId == id && byId[id] == records[i];
      assert EncodingOk(records[i]);
    }
  }

  /** The loop of _validate_encoding_records: how many records it takes, by ID. */
  method TakeEncodings(right: Encoding -> bool, records: seq<Encoding>)
    returns (n: nat, byId: map<EncodingId, Encoding>)
    ensures n <= |records| && TakenUpTo(right, records, n) && byId == ById(records, n)
    ensures n < |records| ==> !right(records[n]) || records[n].encodingId in byId
  {
    n, byId := 0, map[];
    while n < |records| && right(records[n]) && records[n].encodingId !in byId
      invariant n <= |records| && TakenUpTo(right, records, n) && byId == ById(records, n)
    {
      byId := byId[records[n].encodingId := records[n]];
      n := n + 1;
    }
  }

  method CheckEncodings(records: seq<Encoding>, cases: set<CaseId>) returns (byId: Option<map<EncodingId, Encoding>>)
    ensures byId.Some? <==> ValidUpTo(records, cases, |records|)
    ensures byId.Some? ==> Sound(byId.value, cases) && Indexed(byId.value, records, |records|)
  {
    var n, taken := TakeEncodings(EncodingChecker(cases), records);
    if n < |records| {
      RefusedRightly(records, cases, n);
      byId := None;
    } else {
      TakenIsValid(records, cases);
      TakenIsIndexed(EncodingChecker(cases), records, n);
      IndexedIsSound(taken, records, cases);
      byId := Some(taken);
    }
  }

  /** _validate_encoding_records: accepts iff there are 80 records, each right and none repeated; returns them by ID. */
  method ValidateEncodings(records: seq<Encoding>, cases: set<CaseId>) returns (byId: Option<map<EncodingId, Encoding>>)
    ensures byId.Some? <==> |records| == EXPECTED_ENCODING_COUNT && ValidUpTo(records, cases, |records|)
    ensures byId.Some? ==> Sound(byId.value, cases) && Indexed(byId.value, records, |records|)
  {
    byId := CheckEncodings(records, cases);
    if |records| != EXPECTED_ENCODING_COUNT {
      byId := None;
    }
  }

  /** Encodings by ID, each of a known case and accepted by the checker. */
  ghost predicate Sound(encodings: map<EncodingId, Encoding>, cases: set<CaseId>) {
    forall id :: SoundAt(encodings, cases, id)
  }

  predicate SoundAt(encodings: map<EncodingId, Encoding>, cases: set<CaseId>, id: EncodingId) {
    id in encodings ==> EncodingOk(encodings[id]) && encodings[id].encodingId == id && id.caseId in cases
  }

  // ----- inference -----

  /** What the model computes for one row. */
  datatype Numbers = Numbers(logit0: real, logit1: real, p0: real, p1: real, native: real)

  datatype Result = Result(
    numbers: Numbers, recomputed: real,
    width: int, physicalLastId: int, selectedId: int, selectedIndex: int)

  function Width(encodings: seq<Encoding>): (w: nat)
    ensures forall i :: 0 <= i < |encodings| ==> |encodings[i].inputIds| <= w
    ensures encodings != [] ==> exists i :: 0 <= i < |encodings| && |encodings[i].inputIds| == w
  {
    if encodings == [] then 0 else
      var before := Width(encodings[..|encodings| - 1]);
      var last := |encodings[|encodings| - 1].inputIds|;
      assert forall i :: 0 <= i < |encodings| - 1 ==> encodings[..|encodings| - 1][i] == encodings[i];
      if before > last then before else last
  }

  function Padded(ids: seq<int>, width: nat): (row: seq<int>)
    requires |ids| <= width
    ensures |row| == width
  {
    ids + seq(width - |ids|, _ => POSTPROCESSOR)
  }

  function SelectedAt(track: Track, ids: seq<int>, width: nat): int {
    if track == Legacy then width - 1 else |ids| - 1
  }

  function InferRow(track: Track, ids: seq<int>, width: nat, numbers: Numbers): Result
    requires 0 < |ids| <= width
  {
    var row := Padded(ids, width);
    var at := SelectedAt(track, ids, width);
    Result(numbers, numbers.p1 - numbers.p0, width, row[width - 1], row[at], at)
  }

  /** The results of one batch are those of infer. */
  predicate Inferred(track: Track, encodings: seq<Encoding>, results: seq<Result>) {
    && |results| == |encodings|
    && (forall i :: 0 <= i < |encodings| ==> InferredAt(track, encodings, results, i))
  }

  predicate InferredAt(track: Track, encodings: seq<Encoding>, results: seq<Result>, i: nat)
    requires i < |encodings| == |results|
  {
    && encodings[i].inputIds != []
    && results[i] == InferRow(track, encodings[i].inputIds, Width(encodings), results[i].numbers)
  }

  /** LocalQueritRuntime.infer: padding, positions and ids; an empty batch has no width and is an error. */
  method Infer(track: Track, encodings: seq<Encoding>, numbers: seq<Numbers>) returns (results: Option<seq<Result>>)
    requires |numbers| == |encodings| && forall i :: 0 <= i < |encodings| ==> encodings[i].inputIds != []
    ensures results.Some? <==> encodings != []
    ensures results.Some? ==> Inferred(track, encodings, results.value)
    ensures results.Some? ==> forall i :: 0 <= i < |encodings| ==> results.value[i].numbers == numbers[i]
  {
    if encodings == [] {
      return None;
    }
    var width := Width(encodings);
    var rows: seq<Result> := [];
    while |rows| < |encodings|
      invariant |rows| <= |encodings|
      invariant forall i :: 0 <= i < |rows| ==> rows[i] == InferRow(track, encodings[i].inputIds, width, numbers[i])
    {
      var i := |rows|;
      rows := rows + [InferRow(track, encodings[i].inputIds, width, numbers[i])];
    }
    return Some(rows);
  }

  // ----- observations -----

  datatype Cell = Cell(bits: real, value: real)

  datatype Observation = Observation(
    observationId: nat, batchId: string, scheduleId: string, batchSize: int, batchWidth: int,
    caseId: CaseId, track: Track, encodingId: EncodingId, finiteRangeOk: bool,
    logits: seq<Cell>, probabilities: seq<Cell>, native: Cell, recomputed: Cell,
    originalIndex: int, rowPosition: int, padded: int,
    physicalLastIndex: int, physicalLastId: int, selectedIndex: int, selectedId: int,
    sortedIndex: int, stableRank: int)

  /** Rounding to float32: None when it overflows. */
  type Narrow = real -> Option<real>

  function Rounded(narrow: Narrow, x: real): Option<real> {
    narrow(x)
  }

  /** What rounding does: it is idempotent, keeps order, and fixes the bounds of the scores. */
  ghost predicate Narrowing(narrow: Narrow) {
    && (forall x :: Rounded(narrow, x).Some? ==> Rounded(narrow, Rounded(narrow, x).value) == Rounded(narrow, x))
    && (forall x, y :: x <= y && Rounded(narrow, x).Some? && Rounded(narrow, y).Some? ==>
          Rounded(narrow, x).value <= Rounded(narrow, y).value)
    && Rounded(narrow, -1.0) == Some(-1.0) && Rounded(narrow, 0.0) == Some(0.0) && Rounded(narrow, 1.0) == Some(1.0)
  }

  function CellOf(narrow: Narrow, x: real): Cell
    requires narrow(x).Some?
  {
    Cell(narrow(x).value, narrow(x).value)
  }

  predicate CellOk(narrow: Narrow, cell: Cell) {
    narrow(cell.value) == Some(cell.bits)
  }

  predicate Within(low: real, x: real, high: real) {
    low <= x <= high
  }

  datatype Batch = Batch(batchId: string, track: Track, caseIds: seq<CaseId>)

  type Encodings = map<EncodingId, Encoding>

  predicate Known(batch: Batch, encodings: Encodings) {
    forall i :: 0 <= i < |batch.caseIds| ==> EncodingId(batch.caseIds[i], batch.track) in encodings
  }

  function BatchEncodings(batch: Batch, encodings: Encodings): (r: seq<Encoding>)
    requires Known(batch, encodings)
    ensures |r| == |batch.caseIds|
    ensures forall i :: 0 <= i < |r| ==> r[i] == encodings[EncodingId(batch.caseIds[i], batch.track)]
  {
    seq(|batch.caseIds|, i requires 0 <= i < |batch.caseIds| => encodings[EncodingId(batch.caseIds[i], batch.track)])
  }

  /** _finite_result, the metadata check, and the narrowing of every stored number. */
  predicate RowFine(narrow: Narrow, result: Result, width: int) {
    && Within(0.0, result.numbers.p0, 1.0) && Within(0.0, result.numbers.p1, 1.0)
       && Within(-1.0, result.numbers.native, 1.0)
    && result.width == width && result.selectedIndex < width
    && narrow(result.numbers.logit0).Some? && narrow(result.numbers.logit1).Some?
    && narrow(result.numbers.p0).Some? && narrow(result.numbers.p1).Some?
    && narrow(result.numbers.native).Some? && narrow(result.recomputed).Some?
  }

  function Scores(results: seq<Result>): (s: seq<real>)
    ensures |s| == |results| && forall i :: 0 <= i < |s| ==> s[i] == results[i].numbers.native
  {
    seq(|results|, i requires 0 <= i < |results| => results[i].numbers.native)
  }

  /** The stable rank of a row among scores. */
  function Rank(scores: seq<real>, row: nat): nat
    requires row < |scores|
  {
    StableOrderCovers(scores);
    PositionOf(StableOrder(scores), row)
  }

  function Ranks(scores: seq<real>): (ranks: seq<nat>)
    ensures |ranks| == |scores| && forall i :: 0 <= i < |scores| ==> ranks[i] == Rank(scores, i)
  {
    seq(|scores|, i requires 0 <= i < |scores| => Rank(scores, i))
  }

  /** What is fixed for a batch before its rows are recorded. */
  datatype Frame = Frame(batch: Batch, encodings: seq<Encoding>, width: nat, results: seq<Result>, ranks: seq<nat>)

  predicate Framed(f: Frame) {
    |f.batch.caseIds| == |f.encodings| == |f.results| == |f.ranks|
  }

  /** None when a case or its encoding is unknown, the batch is empty, or the result count is wrong. */
  function FrameOf(batch: Batch, encodings: Encodings, results: seq<Result>): (f: Option<Frame>)
    ensures f.Some? <==> Known(batch, encodings) && |results| == |batch.caseIds| && batch.caseIds != []
    ensures f.Some? ==> Framed(f.value) && f.value.batch == batch && f.value.results == results
  {
    if Known(batch, encodings) && |results| == |batch.caseIds| && batch.caseIds != [] then
      var rows := BatchEncodings(batch, encodings);
      Some(Frame(batch, rows, Width(rows), results, Ranks(Scores(results))))
    else None
  }

  function Frames(schedule: seq<Batch>, encodings: Encodings, results: seq<seq<Result>>): (frames: seq<Option<Frame>>)
    requires |results| == |schedule|
    ensures |frames| == |schedule|
    ensures forall k :: 0 <= k < |frames| ==> frames[k] == FrameOf(schedule[k], encodings, results[k])
  {
    seq(|schedule|, k requires 0 <= k < |schedule| => FrameOf(schedule[k], encodings, results[k]))
  }

  /** The first n rows of the batch raise no error. */
  predicate RowsFine(narrow: Narrow, f: Frame, n: nat) {
    && Framed(f) && n <= |f.results|
    && (forall i :: 0 <= i < n ==> RowFine(narrow, f.results[i], f.width))
  }

  lemma {:induction false} RowsFineGrow(narrow: Narrow, f: Frame, n: nat)
    requires RowsFine(narrow, f, n) && n < |f.results| && RowFine(narrow, f.results[n], f.width)
    ensures RowsFine(narrow, f, n + 1)
  {
    forall i | 0 <= i < n + 1 ensures RowFine(narrow, f.results[i], f.width) {
      if i < n {
        assert RowFine(narrow, f.results[i], f.width);
      }
    }
  }

  predicate BatchFine(narrow: Narrow, frame: Option<Frame>) {
    frame.Some? && RowsFine(narrow, frame.value, |frame.value.results|)
  }

  function Observe(narrow: Narrow, f: Frame, row: nat, number: nat): Observation
    requires Framed(f) && row < |f.results| && RowFine(narrow, f.results[row], f.width)
  {
    var result := f.results[row];
    var n := result.numbers;
    var rank := f.ranks[row];
    Observation(
      number, f.batch.batchId, f.batch.batchId, |f.batch.caseIds|, f.width,
      f.batch.caseIds[row], f.batch.track, f.encodings[row].encodingId, true,
      [CellOf(narrow, n.logit0), CellOf(narrow, n.logit1)], [CellOf(narrow, n.p0), CellOf(narrow, n.p1)],
      CellOf(narrow, n.native), CellOf(narrow, result.recomputed),
      row, row, f.width - |f.encodings[row].inputIds|,
      f.width - 1, result.physicalLastId, result.selectedIndex, result.selectedId,
      rank, rank)
  }

  /** A record stores the logits and probabilities class by class, and their difference the right way round. */
  lemma {:induction false} ObservedNumbers(narrow: Narrow, f: Frame, row: nat, number: nat)
    requires Framed(f) && row < |f.results| && RowFine(narrow, f.results[row], f.width)
    ensures var o, n := Observe(narrow, f, row, number), f.results[row].numbers;
            && |o.logits| == |o.probabilities| == 2
            && narrow(n.logit0) == Some(o.logits[0].bits) && narrow(n.logit1) == Some(o.logits[1].bits)
            && narrow(n.p0) == Some(o.probabilities[0].bits) && narrow(n.p1) == Some(o.probabilities[1].bits)
            && narrow(n.native) == Some(o.native.bits) && narrow(f.results[row].recomputed) == Some(o.recomputed.bits)
    ensures var o := Observe(narrow, f, row, number);
            && o.observationId == number && o.batchId == o.scheduleId == f.batch.batchId
            && o.caseId == f.batch.caseIds[row] && o.track == f.batch.track
            && o.encodingId == f.encodings[row].encodingId && o.originalIndex == o.rowPosition == row
            && o.batchSize == |f.batch.caseIds|
  {}

  /** The first n rows of a batch, numbered from start. */
  function RowPrefix(narrow: Narrow, f: Frame, start: nat, n: nat): (rows: seq<Observation>)
    requires RowsFine(narrow, f, n)
    ensures |rows| == n
  {
    if n == 0 then [] else
      var row := n - 1;
      RowPrefix(narrow, f, start, row) + [Observe(narrow, f, row, start + row)]
  }

  lemma {:induction false} RowPrefixGrows(narrow: Narrow, f: Frame, start: nat, row: nat)
    requires RowsFine(narrow, f, row + 1) && RowsFine(narrow, f, row)
    ensures RowPrefix(narrow, f, start, row + 1)
            == RowPrefix(narrow, f, start, row) + [Observe(narrow, f, row, start + row)]
  {}

  lemma {:induction false} RowAt(narrow: Narrow, f: Frame, start: nat, n: nat, i: nat)
    requires RowsFine(narrow, f, n) && i < n
    ensures RowPrefix(narrow, f, start, n)[i] == Observe(narrow, f, i, start + i)
  {
    if i < n - 1 {
      RowAt(narrow, f, start, n - 1, i);
    }
  }

  function BatchRows(narrow: Narrow, frame: Option<Frame>, start: nat): (rows: seq<Observation>)
    requires BatchFine(narrow, frame)
    ensures |rows| == |frame.value.results|
  {
    RowPrefix(narrow, frame.value, start, |frame.value.results|)
  }

  /** The first n batches raise no error. */
  predicate FineUpTo(narrow: Narrow, frames: seq<Option<Frame>>, n: nat)
    requires n <= |frames|
  {
    forall k :: 0 <= k < n ==> BatchFine(narrow, frames[k])
  }

  lemma {:induction false} FineGrows(narrow: Narrow, frames: seq<Option<Frame>>, n: nat)
    requires n < |frames| && FineUpTo(narrow, frames, n) && BatchFine(narrow, frames[n])
    ensures FineUpTo(narrow, frames, n + 1)
  {
    forall k | 0 <= k < n + 1 ensures BatchFine(narrow, frames[k]) {
      if k < n {
        assert BatchFine(narrow, frames[k]);
      }
    }
  }

  /** The rows of one batch. */
  type Piece = seq<Observation>

  function Flat(pieces: seq<Piece>): seq<Observation> {
    if pieces == [] then [] else Flat(pieces[..|pieces| - 1]) + pieces[|pieces| - 1]
  }

  /** The rows of the first n batches, batch by batch; observations are numbered throughout. */
  function PiecesOf(narrow: Narrow, frames: seq<Option<Frame>>, n: nat): (pieces: seq<Piece>)
    requires n <= |frames| && FineUpTo(narrow, frames, n)
    ensures |pieces| == n
  {
    if n == 0 then [] else
      var before := PiecesOf(narrow, frames, n - 1);
      before + [BatchRows(narrow, frames[n - 1], |Flat(before)|)]
  }

  function Rows(narrow: Narrow, frames: seq<Option<Frame>>, n: nat): seq<Observation>
    requires n <= |frames| && FineUpTo(narrow, frames, n)
  {
    Flat(PiecesOf(narrow, frames, n))
  }

  lemma {:induction false} RowsGrow(narrow: Narrow, frames: seq<Option<Frame>>, n: nat)
    requires n < |frames| && FineUpTo(narrow, frames, n) && FineUpTo(narrow, frames, n + 1)
    ensures Rows(narrow, frames, n + 1)
            == Rows(narrow, frames, n) + BatchRows(narrow, frames[n], |Rows(narrow, frames, n)|)
  {
    var before, after := PiecesOf(narrow, frames, n), PiecesOf(narrow, frames, n + 1);
    assert after[..n] == before;
  }

  lemma {:induction false} NotFine(narrow: Narrow, frames: seq<Option<Frame>>, k: nat)
    requires k < |frames| && !BatchFine(narrow, frames[k])
    ensures !FineUpTo(narrow, frames, |frames|)
  {}

  /** The inner loop of _execute_schedule. */
  method ExecuteRows(narrow: Narrow, f: Frame, start: nat) returns (rows: Option<seq<Observation>>)
    requires Framed(f)
    ensures rows.Some? <==> RowsFine(narrow, f, |f.results|)
    ensures rows.Some? ==> rows.value == RowPrefix(narrow, f, start, |f.results|)
  {
    var observations: seq<Observation> := [];
    var row := 0;
    while row < |f.results|
      invariant 0 <= row <= |f.results|
      invariant RowsFine(narrow, f, row)
      invariant observations == RowPrefix(narrow, f, start, row)
    {
      if !RowFine(narrow, f.results[row], f.width) {
        return None;
      }
      RowsFineGrow(narrow, f, row);
      RowPrefixGrows(narrow, f, start, row);
      observations := observations + [Observe(narrow, f, row, start + row)];
      row := row + 1;
    }
    return Some(observations);
  }

  method ExecuteBatch(narrow: Narrow, frame: Option<Frame>, start: nat) returns (rows: Option<seq<Observation>>)
    requires frame.Some? ==> Framed(frame.value)
    ensures rows.Some? <==> BatchFine(narrow, frame)
    ensures rows.Some? ==> rows.value == BatchRows(narrow, frame, start)
  {
    rows := None;
    if frame.Some? {
      rows := ExecuteRows(narrow, frame.value, start);
    }
  }

  /** The outer loop of _execute_schedule. */
  method ExecuteFrames(narrow: Narrow, frames: seq<Option<Frame>>) returns (observations: Option<seq<Observation>>)
    requires forall k :: 0 <= k < |frames| && frames[k].Some? ==> Framed(frames[k].value)
    ensures observations.Some? <==> FineUpTo(narrow, frames, |frames|)
    ensures observations.Some? ==> observations.value == Rows(narrow, frames, |frames|)
  {
    var all: seq<Observation> := [];
    var k := 0;
    while k < |frames|
      invariant 0 <= k <= |frames| && FineUpTo(narrow, frames, k)
      invariant all == Rows(narrow, frames, k)
    {
      var rows := ExecuteBatch(narrow, frames[k], |all|);
      if rows.None? {
        NotFine(narrow, frames, k);
        return None;
      }
      FineGrows(narrow, frames, k);
      RowsGrow(narrow, frames, k);
      all := all + rows.value;
      k := k + 1;
    }
    return Some(all);
  }

  /** _execute_schedule, for the results the runtime returned batch by batch. */
  method ExecuteSchedule(narrow: Narrow, schedule: seq<Batch>, encodings: Encodings, results: seq<seq<Result>>)
    returns (observations: Option<seq<Observation>>)
    requires |results| == |schedule|
    ensures observations.Some? <==> Produced(narrow, schedule, encodings, results)
    ensures observations.Some? ==> observations.value == Rows(narrow, Frames(schedule, encodings, results), |schedule|)
  {
    observations := ExecuteFrames(narrow, Frames(schedule, encodings, results));
    if observations.Some? && |observations.value| != EXPECTED_OBSERVATION_COUNT {
      observations := None;
    }
  }

  /** No batch or row is refused, and there are exactly as many rows as expected. */
  predicate Produced(narrow: Narrow, schedule: seq<Batch>, encodings: Encodings, results: seq<seq<Result>>)
    requires |results| == |schedule|
  {
    && FineUpTo(narrow, Frames(schedule, encodings, results), |schedule|)
    && |Rows(narrow, Frames(schedule, encodings, results), |schedule|)| == EXPECTED_OBSERVATION_COUNT
  }

  // ----- the checker -----

  function Lookup(encodings: Encodings, id: EncodingId): Option<Encoding> {
    if id in encodings then Some(encodings[id]) else None
  }

  /** The conditions _validate_observation_records puts on one record. */
  predicate RowOk(narrow: Narrow, o: Observation, cases: set<CaseId>, encodings: Encodings)
  {
    match Lookup(encodings, o.encodingId)
    case None => false
    case Some(encoding) =>
      && o.caseId in cases && o.encodingId == EncodingId(o.caseId, o.track)
      && NumbersOk(narrow, o) && PlacesOk(o, encoding)
      && o.originalIndex == o.rowPosition && o.scheduleId == o.batchId
  }

  /** Two logits and probabilities, exact cells, and values in range. */
  predicate NumbersOk(narrow: Narrow, o: Observation) {
    && |o.logits| == 2 && |o.probabilities| == 2
    && CellOk(narrow, o.logits[0]) && CellOk(narrow, o.logits[1])
    && CellOk(narrow, o.probabilities[0]) && CellOk(narrow, o.probabilities[1])
    && Within(0.0, o.probabilities[0].bits, 1.0) && Within(0.0, o.probabilities[1].bits, 1.0)
    && CellOk(narrow, o.native) && CellOk(narrow, o.recomputed)
    && Within(-1.0, o.native.bits, 1.0) && Within(-1.0, o.recomputed.bits, 1.0) && o.finiteRangeOk
  }

  /** Width, padding, physical-last and selected fields, derived again from the encoding. */
  predicate PlacesOk(o: Observation, e: Encoding) {
    var length, width := |e.inputIds|, o.batchWidth;
    var physicalId := if 0 < length == width then e.inputIds[length - 1] else POSTPROCESSOR;
    && 0 < length <= width <= MAX_TOKEN_COUNT && o.padded == width - length
    && o.physicalLastIndex == width - 1 && o.physicalLastId == physicalId
    && o.selectedIndex == (if o.track == Legacy then width - 1 else e.lastIndex)
    && o.selectedId == (if o.track == Legacy then physicalId else e.lastId)
  }

  /** What a record may say: known case, two logits, probabilities in [0, 1], scores in [-1, 1], exact bits. */
  lemma {:induction false} AcceptedRecord(narrow: Narrow, o: Observation, cases: set<CaseId>, encodings: Encodings)
    requires RowOk(narrow, o, cases, encodings)
    ensures o.caseId in cases && EncodingId(o.caseId, o.track) in encodings && o.finiteRangeOk
    ensures |o.logits| == |o.probabilities| == 2
    ensures forall i :: 0 <= i < 2 ==>
              && narrow(o.logits[i].value) == Some(o.logits[i].bits)
              && narrow(o.probabilities[i].value) == Some(o.probabilities[i].bits)
              && 0.0 <= o.probabilities[i].bits <= 1.0
    ensures narrow(o.native.value) == Some(o.native.bits) && -1.0 <= o.native.bits <= 1.0
    ensures narrow(o.recomputed.value) == Some(o.recomputed.bits) && -1.0 <= o.recomputed.bits <= 1.0
    ensures 0 < |encodings[o.encodingId].inputIds| <= o.batchWidth <= 40960
  {}

  /** The checker leaves nothing else open: of all records with these fields, at most one is accepted. */
  lemma {:induction false} RecordIsDetermined(narrow: Narrow, o: Observation, p: Observation, cases: set<CaseId>,
                                              encodings: Encodings)
    requires RowOk(narrow, o, cases, encodings) && RowOk(narrow, p, cases, encodings)
    requires p == o.(scheduleId := p.scheduleId, encodingId := p.encodingId, finiteRangeOk := p.finiteRangeOk,
                     originalIndex := p.originalIndex, padded := p.padded, physicalLastIndex := p.physicalLastIndex,
                     physicalLastId := p.physicalLastId, selectedIndex := p.selectedIndex,
                     selectedId := p.selectedId)
    ensures o == p
  {}

  function RowsOf(records: seq<Observation>, id: string): (rows: seq<Observation>)
  {
    if records == [] then [] else
      var last := records[|records| - 1];
      RowsOf(records[..|records| - 1], id) + (if last.batchId == id then [last] else [])
  }

  function Positions(rows: seq<Observation>): (p: seq<int>)
    ensures |p| == |rows| && forall i :: 0 <= i < |p| ==> p[i] == rows[i].rowPosition
  {
    seq(|rows|, i requires 0 <= i < |rows| => rows[i].rowPosition)
  }

  predicate RowsComplete(rows: seq<Observation>) {
    multiset(Positions(rows)) == multiset(Range(|rows|))
  }

  lemma {:induction false} PositionIsThere(rows: seq<Observation>, p: int)
    requires RowsComplete(rows) && 0 <= p < |rows|
    ensures p in Positions(rows)
  {
    assert Range(|rows|)[p] == p;
    MembersOf(Positions(rows), Range(|rows|));
  }

  /** Scores by row position. */
  function OrderedScores(rows: seq<Observation>): (s: seq<real>)
    requires RowsComplete(rows)
    ensures |s| == |rows|
  {
    seq(|rows|, p requires 0 <= p < |rows| =>
      PositionIsThere(rows, p); rows[PositionOf(Positions(rows), p)].native.value)
  }

  predicate RankOk(rows: seq<Observation>, row: Observation)
    requires RowsComplete(rows)
  {
    && 0 <= row.rowPosition < |rows|
    && row.stableRank == row.sortedIndex == Rank(OrderedScores(rows), row.rowPosition)
  }

  /** The conditions on the rows of one batch. */
  predicate BatchOk(rows: seq<Observation>)
    requires rows != []
  {
    && 1 <= rows[0].batchSize <= 8 && |rows| == rows[0].batchSize && RowsComplete(rows)
    && (forall i :: 0 <= i < |rows| ==>
          rows[i].batchSize == rows[0].batchSize && rows[i].batchWidth == rows[0].batchWidth
              && rows[i].track == rows[0].track)
    && (forall i :: 0 <= i < |rows| ==> RankOk(rows, rows[i]))
  }

  /** The check of one record, as the loop applies it. */
  function Checker(narrow: Narrow, cases: set<CaseId>, encodings: Encodings): Observation -> bool {
    o => RowOk(narrow, o, cases, encodings)
  }

  /** The first n records have distinct IDs and each is right in itself. */
  predicate RecordsOk(right: Observation -> bool, records: seq<Observation>, n: nat)
    requires n <= |records|
  {
    && (forall i :: 0 <= i < n ==> right(records[i]))
    && (forall i, j :: 0 <= i < j < n ==> records[i].observationId != records[j].observationId)
  }

  predicate BatchesOk(records: seq<Observation>) {
    forall i :: 0 <= i < |records| ==> NamedBatchOk(records, records[i].batchId)
  }

  predicate NamedBatchOk(records: seq<Observation>, id: string) {
    RowsOf(records, id) != [] && BatchOk(RowsOf(records, id))
  }

  /** batches groups the first n records by batch ID, in order. */
  ghost predicate Grouped(batches: map<string, seq<Observation>>, records: seq<Observation>, n: nat)
    requires n <= |records|
  {
    && (forall id :: id in batches ==> batches[id] == RowsOf(records[..n], id) && batches[id] != [])
    && (forall i :: 0 <= i < n ==> records[i].batchId in batches)
  }

  lemma {:induction false} RowsOfGrows(records: seq<Observation>, n: nat, id: string)
    requires n < |records|
    ensures RowsOf(records[..n + 1], id)
            == RowsOf(records[..n], id) + (if records[n].batchId == id then [records[n]] else [])
  {
    assert records[..n + 1][..n] == records[..n];
  }

  lemma {:induction false} NoRowsOf(records: seq<Observation>, id: string)
    requires forall i :: 0 <= i < |records| ==> records[i].batchId != id
    ensures RowsOf(records, id) == []
    decreases |records|
  {
    if records != [] {
      NoRowsOf(records[..|records| - 1], id);
    }
  }

  function With(batches: map<string, seq<Observation>>, record: Observation): map<string, seq<Observation>> {
    var id := record.batchId;
    batches[id := (if id in batches then batches[id] else []) + [record]]
  }

  lemma {:induction false} GroupGrows(batches: map<string, seq<Observation>>, records: seq<Observation>, n: nat)
    requires n < |records| && Grouped(batches, records, n)
    ensures Grouped(With(batches, records[n]), records, n + 1)
  {
    var more := With(batches, records[n]);
    forall id | id in more ensures more[id] == RowsOf(records[..n + 1], id) && more[id] != [] {
      RowsOfGrows(records, n, id);
      if id !in batches {
        NoRowsOf(records[..n], id);
      }
    }
  }

  function GroupsUpTo(records: seq<Observation>, n: nat): map<string, seq<Observation>>
    requires n <= |records|
  {
    if n == 0 then map[] else With(GroupsUpTo(records, n - 1), records[n - 1])
  }

  lemma {:induction false} GroupsAreGrouped(records: seq<Observation>, n: nat)
    requires n <= |records|
    ensures Grouped(GroupsUpTo(records, n), records, n)
  {
    if n > 0 {
      GroupsAreGrouped(records, n - 1);
      GroupGrows(GroupsUpTo(records, n - 1), records, n - 1);
    }
  }

  function IdsUpTo(records: seq<Observation>, n: nat): (ids: set<nat>)
    requires n <= |records|
    ensures forall i :: 0 <= i < n ==> records[i].observationId in ids
  {
    if n == 0 then {} else IdsUpTo(records, n - 1) + {records[n - 1].observationId}
  }

  lemma {:induction false} IdComesFrom(records: seq<Observation>, n: nat, id: nat)
    requires n <= |records| && id in IdsUpTo(records, n)
    ensures exists i :: 0 <= i < n && records[i].observationId == id
  {
    if records[n - 1].observationId != id {
      IdComesFrom(records, n - 1, id);
    }
  }

  lemma {:induction false} RecordRefused(right: Observation -> bool, records: seq<Observation>, n: nat)
    requires n < |records| && (records[n].observationId in IdsUpTo(records, n) || !right(records[n]))
    ensures !RecordsOk(right, records, |records|)
  {
    if records[n].observationId in IdsUpTo(records, n) {
      IdComesFrom(records, n, records[n].observationId);
    }
  }

  /** The first n records are accepted one after another. */
  predicate AcceptedUpTo(right: Observation -> bool, records: seq<Observation>, n: nat)
    requires n <= |records|
  {
    n == 0 || (AcceptedUpTo(right, records, n - 1) && records[n - 1].observationId !in IdsUpTo(records, n - 1)
               && right(records[n - 1]))
  }

  lemma {:induction false} AcceptedIsOk(right: Observation -> bool, records: seq<Observation>, n: nat)
    requires n <= |records| && AcceptedUpTo(right, records, n)
    ensures RecordsOk(right, records, n)
  {
    if n > 0 {
      AcceptedIsOk(right, records, n - 1);
    }
  }

  /** The first loop of _validate_observation_records: how many records it takes, and their groups. */
  method TakeRecords(right: Observation -> bool, records: seq<Observation>)
    returns (n: nat, batches: map<string, seq<Observation>>)
    ensures n <= |records| && AcceptedUpTo(right, records, n) && batches == GroupsUpTo(records, n)
    ensures n < |records| ==> records[n].observationId in IdsUpTo(records, n) || !right(records[n])
  {
    var identifiers: set<nat> := {};
    n, batches := 0, map[];
    while n < |records| && records[n].observationId !in identifiers && right(records[n])
      invariant n <= |records| && identifiers == IdsUpTo(records, n)
      invariant AcceptedUpTo(right, records, n)
      invariant batches == GroupsUpTo(records, n)
    {
      batches := With(batches, records[n]);
      identifiers := identifiers + {records[n].observationId};
      n := n + 1;
    }
  }

  method CheckRecords(right: Observation -> bool, records: seq<Observation>)
    returns (batches: Option<map<string, seq<Observation>>>)
    ensures batches.Some? <==> RecordsOk(right, records, |records|)
    ensures batches.Some? ==> Grouped(batches.value, records, |records|)
  {
    var n, grouped := TakeRecords(right, records);
    if n < |records| {
      RecordRefused(right, records, n);
      batches := None;
    } else {
      AcceptedIsOk(right, records, n);
      GroupsAreGrouped(records, n);
      batches := Some(grouped);
    }
  }

  lemma {:induction false} RowsComeFrom(records: seq<Observation>, id: string)
    requires RowsOf(records, id) != []
    ensures exists i :: 0 <= i < |records| && records[i].batchId == id
  {
    if forall i :: 0 <= i < |records| ==> records[i].batchId != id {
      NoRowsOf(records, id);
    }
  }

  /** The second loop, over the grouped batches. */
  method CheckBatches(records: seq<Observation>, batches: map<string, seq<Observation>>) returns (ok: bool)
    requires Grouped(batches, records, |records|)
    ensures ok <==> BatchesOk(records)
  {
    assert records[..|records|] == records;
    var todo := batches.Keys;
    while todo != {}
      invariant todo <= batches.Keys
      invariant forall id :: id in batches && id !in todo ==> NamedBatchOk(records, id)
    {
      var id :| id in todo;
      if !BatchOk(batches[id]) {
        RowsComeFrom(records, id);
        return false;
      }
      todo := todo - {id};
    }
    return true;
  }

  /** _validate_observation_records: what it accepts, stated on the records alone. */
  method ValidateObservations(narrow: Narrow, records: seq<Observation>, cases: set<CaseId>, encodings: Encodings)
    returns (ok: bool)
    ensures ok <==> && |records| == EXPECTED_OBSERVATION_COUNT
                    && RecordsOk(Checker(narrow, cases, encodings), records, |records|) && BatchesOk(records)
  {
    var batches := CheckRecords(Checker(narrow, cases, encodings), records);
    ok := false;
    if |records| == EXPECTED_OBSERVATION_COUNT && batches.Some? {
      ok := CheckBatches(records, batches.value);
    }
  }

  // ----- what the producer emits, the checker accepts -----

  lemma {:induction false} CellInRange(narrow: Narrow, low: real, x: real, high: real)
    requires Narrowing(narrow) && low <= x <= high && narrow(x).Some?
    requires Rounded(narrow, low) == Some(low) && Rounded(narrow, high) == Some(high)
    ensures CellOk(narrow, CellOf(narrow, x)) && Within(low, CellOf(narrow, x).bits, high)
  {
    CellRight(narrow, x);
    assert Rounded(narrow, low).value <= Rounded(narrow, x).value <= Rounded(narrow, high).value;
  }

  lemma {:induction false} CellRight(narrow: Narrow, x: real)
    requires Narrowing(narrow) && narrow(x).Some?
    ensures CellOk(narrow, CellOf(narrow, x))
  {
    assert Rounded(narrow, x).Some?;
    assert Rounded(narrow, Rounded(narrow, x).value) == Rounded(narrow, x);
  }

  lemma {:induction false} PaddedEnds(ids: seq<int>, width: nat)
    requires 0 < |ids| <= width
    ensures Padded(ids, width)[|ids| - 1] == ids[|ids| - 1]
    ensures Padded(ids, width)[width - 1] == if |ids| == width then ids[|ids| - 1] else POSTPROCESSOR
  {}

  lemma {:induction false} PlacesDerivedAgain(o: Observation, e: Encoding, width: nat)
    requires EncodingOk(e) && |e.inputIds| <= width <= MAX_TOKEN_COUNT
    requires o.batchWidth == width && o.padded == width - |e.inputIds| && o.physicalLastIndex == width - 1
             && o.track == e.track
    requires o.selectedIndex == SelectedAt(e.track, e.inputIds, width)
             && o.physicalLastId == Padded(e.inputIds, width)[width - 1]
    requires o.selectedId == Padded(e.inputIds, width)[SelectedAt(e.track, e.inputIds, width)]
    ensures PlacesOk(o, e)
  {
    PaddedEnds(e.inputIds, width);
  }

  /** The frame is what the schedule gives for its batch, with the runtime's results. */
  predicate Genuine(f: Frame, encodings: Encodings) {
    FrameOf(f.batch, encodings, f.results) == Some(f) && Inferred(f.batch.track, f.encodings, f.results)
  }

  lemma {:induction false} GenuineRow(f: Frame, encodings: Encodings, cases: set<CaseId>, row: nat)
    requires Sound(encodings, cases) && Genuine(f, encodings) && row < |f.results|
    ensures Framed(f) && EncodingOk(f.encodings[row]) && EncodingId(f.batch.caseIds[row], f.batch.track) in encodings
    ensures f.encodings[row] == encodings[EncodingId(f.batch.caseIds[row], f.batch.track)]
    ensures f.encodings[row].encodingId == EncodingId(f.batch.caseIds[row], f.batch.track)
    ensures f.encodings[row].track == f.batch.track && f.batch.caseIds[row] in cases
    ensures |f.encodings[row].inputIds| <= f.width <= MAX_TOKEN_COUNT
    ensures f.results[row] == InferRow(f.batch.track, f.encodings[row].inputIds, f.width, f.results[row].numbers)
  {
    var i :| 0 <= i < |f.encodings| && |f.encodings[i].inputIds| == f.width;
    assert SoundAt(encodings, cases, EncodingId(f.batch.caseIds[i], f.batch.track));
    assert SoundAt(encodings, cases, EncodingId(f.batch.caseIds[row], f.batch.track));
    assert InferredAt(f.batch.track, f.encodings, f.results, row);
  }

  lemma {:induction false} ObservedRowOk(narrow: Narrow, f: Frame, row: nat, number: nat, o: Observation,
                                         encodings: Encodings, cases: set<CaseId>)
    requires Narrowing(narrow) && Sound(encodings, cases) && Genuine(f, encodings)
    requires row < |f.results| && RowFine(narrow, f.results[row], f.width) && Framed(f)
             && o == Observe(narrow, f, row, number)
    ensures RowOk(narrow, o, cases, encodings)
  {
    GenuineRow(f, encodings, cases, row);
    assert NumbersOk(narrow, o) by {
      NumbersObserved(narrow, f, row, number);
    }
    assert PlacesOk(o, f.encodings[row]) by {
      PlacesObserved(narrow, f, row, number);
    }
  }

  lemma {:induction false} PlacesObserved(narrow: Narrow, f: Frame, row: nat, number: nat)
    requires Framed(f) && row < |f.results| && RowFine(narrow, f.results[row], f.width)
    requires EncodingOk(f.encodings[row]) && f.encodings[row].track == f.batch.track
    requires |f.encodings[row].inputIds| <= f.width <= MAX_TOKEN_COUNT
    requires f.results[row] == InferRow(f.batch.track, f.encodings[row].inputIds, f.width, f.results[row].numbers)
    ensures PlacesOk(Observe(narrow, f, row, number), f.encodings[row])
  {
    PlacesDerivedAgain(Observe(narrow, f, row, number), f.encodings[row], f.width);
  }

  lemma {:induction false} NumbersObserved(narrow: Narrow, f: Frame, row: nat, number: nat)
    requires Narrowing(narrow) && Framed(f) && row < |f.results| && RowFine(narrow, f.results[row], f.width)
    requires f.results[row].recomputed == f.results[row].numbers.p1 - f.results[row].numbers.p0
    ensures NumbersOk(narrow, Observe(narrow, f, row, number))
  {
    var n := f.results[row].numbers;
    CellRight(narrow, n.logit0);
    CellRight(narrow, n.logit1);
    CellInRange(narrow, 0.0, n.p0, 1.0);
    CellInRange(narrow, 0.0, n.p1, 1.0);
    CellInRange(narrow, -1.0, n.native, 1.0);
    CellInRange(narrow, -1.0, f.results[row].recomputed, 1.0);
  }

  /** Scores as the checker sees them. */
  function Narrowed(narrow: Narrow, scores: seq<real>): (r: seq<real>)
    requires forall i :: 0 <= i < |scores| ==> narrow(scores[i]).Some?
    ensures |r| == |scores| && forall i :: 0 <= i < |r| ==> r[i] == narrow(scores[i]).value
  {
    seq(|scores|, i requires 0 <= i < |scores| => narrow(scores[i]).value)
  }

  /** Rounding the scores does not change their order. */
  predicate OrderSurvives(narrow: Narrow, scores: seq<real>) {
    && (forall i :: 0 <= i < |scores| ==> narrow(scores[i]).Some?)
    && StableOrder(Narrowed(narrow, scores)) == StableOrder(scores)
  }

  lemma {:induction false} RanksDecideOrder(a: seq<real>, b: seq<real>)
    requires |a| == |b|
    ensures (forall i :: 0 <= i < |a| ==> Rank(a, i) == Rank(b, i)) <==> StableOrder(a) == StableOrder(b)
  {
    StableOrderCovers(a);
    StableOrderCovers(b);
    if forall i :: 0 <= i < |a| ==> Rank(a, i) == Rank(b, i) {
      forall r | 0 <= r < |a| ensures StableOrder(a)[r] == StableOrder(b)[r] {
        var i := StableOrder(a)[r];
        assert Rank(a, i) == Rank(b, i);
      }
    }
  }

  /** An earlier row scores less than a later one, and both are stored as the same number. */
  predicate Collide(narrow: Narrow, scores: seq<real>, i: int, j: int) {
    0 <= i < j < |scores| && scores[i] < scores[j] && narrow(scores[i]) == narrow(scores[j])
  }

  /** Every score can be stored, and no two collide. */
  predicate KeptApart(narrow: Narrow, scores: seq<real>) {
    && (forall i :: 0 <= i < |scores| ==> narrow(scores[i]).Some?)
    && (forall i, j :: 0 <= i < j < |scores| ==> !Collide(narrow, scores, i, j))
  }

  /** A row ranked before another is still before it after rounding, unless the two collide. */
  lemma {:induction false} BeforeAfterRounding(narrow: Narrow, scores: seq<real>, a: int, b: int)
    requires Narrowing(narrow) && KeptApart(narrow, scores) && Before(scores, a, b)
    ensures Before(Narrowed(narrow, scores), a, b)
  {
    assert Rounded(narrow, scores[b]).value <= Rounded(narrow, scores[a]).value;
    if b < a {
      assert !Collide(narrow, scores, b, a);
    }
  }

  lemma {:induction false} ApartSurvives(narrow: Narrow, scores: seq<real>)
    requires Narrowing(narrow) && KeptApart(narrow, scores)
    ensures OrderSurvives(narrow, scores)
  {
    var order, cells := StableOrder(scores), Narrowed(narrow, scores);
    forall p, q | 0 <= p < q < |order| ensures Before(cells, order[p], order[q]) {
      assert Before(scores, order[p], order[q]);
      BeforeAfterRounding(narrow, scores, order[p], order[q]);
    }
    StableOrderUnique(cells, order);
  }

  /** A row that is before another stands before it in the stable order. */
  lemma {:induction false} RankFollows(scores: seq<real>, a: nat, b: nat)
    requires Before(scores, a, b)
    ensures Rank(scores, a) < Rank(scores, b)
  {
    StableOrderCovers(scores);
    var order := StableOrder(scores);
    var p, q := Rank(scores, a), Rank(scores, b);
    assert order[p] == a && order[q] == b;
    assert q < p ==> Before(scores, order[q], order[p]);
  }

  /** Wherever two scores collide, the producer ranks the later row first and the checker the earlier one. */
  lemma {:induction false} CollisionRefused(narrow: Narrow, scores: seq<real>, i: nat, j: nat)
    requires (forall k :: 0 <= k < |scores| ==> narrow(scores[k]).Some?) && Collide(narrow, scores, i, j)
    ensures !OrderSurvives(narrow, scores)
  {
    var cells := Narrowed(narrow, scores);
    RankFollows(scores, j, i);
    RankFollows(cells, i, j);
    RanksDecideOrder(scores, cells);
  }

  /** The order survives rounding exactly when no two scores collide. */
  lemma {:induction false} SurvivesIffApart(narrow: Narrow, scores: seq<real>)
    requires Narrowing(narrow)
    ensures OrderSurvives(narrow, scores) <==> KeptApart(narrow, scores)
  {
    if KeptApart(narrow, scores) {
      ApartSurvives(narrow, scores);
    } else if forall i :: 0 <= i < |scores| ==> narrow(scores[i]).Some? {
      var i, j :| 0 <= i < j < |scores| && Collide(narrow, scores, i, j);
      CollisionRefused(narrow, scores, i, j);
    }
  }

  /** The rows of one batch, as far as the batch checks look at them. */
  predicate InOrder(rows: seq<Observation>, scores: seq<real>, size: int, width: int, track: Track) {
    && |rows| == |scores|
    && (forall i :: 0 <= i < |rows| ==>
          && rows[i].rowPosition == i && rows[i].native.value == scores[i]
          && rows[i].batchSize == size && rows[i].batchWidth == width && rows[i].track == track)
  }

  lemma {:induction false} InOrderScores(rows: seq<Observation>, scores: seq<real>, size: int, width: int, track: Track)
    requires InOrder(rows, scores, size, width, track)
    ensures RowsComplete(rows) && OrderedScores(rows) == scores
  {
    assert Positions(rows) == Range(|rows|);
    forall p | 0 <= p < |rows| ensures OrderedScores(rows)[p] == scores[p] {
      PositionIsThere(rows, p);
      assert rows[PositionOf(Positions(rows), p)].rowPosition == p;
    }
  }

  /** Every row carries its rank among these scores. */
  predicate RankedBy(rows: seq<Observation>, scores: seq<real>)
    requires |rows| == |scores|
  {
    forall i :: 0 <= i < |rows| ==> rows[i].stableRank == rows[i].sortedIndex == Rank(scores, i)
  }

  /** Rows in order pass the batch checks iff there are 1 to 8, as many as they say, and their ranks are right. */
  lemma {:induction false} InOrderBatchOk(rows: seq<Observation>, scores: seq<real>, size: int, width: int,
                                          track: Track)
    requires InOrder(rows, scores, size, width, track) && rows != []
    ensures BatchOk(rows) <==> 1 <= |rows| == size <= 8 && RankedBy(rows, scores)
  {
    InOrderScores(rows, scores, size, width, track);
    forall i | 0 <= i < |rows|
      ensures RankOk(rows, rows[i]) <==> rows[i].stableRank == rows[i].sortedIndex == Rank(scores, i)
    {}
    if 1 <= |rows| == size <= 8 && RankedBy(rows, scores) {
      assert forall i :: 0 <= i < |rows| ==> RankOk(rows, rows[i]);
    }
  }

  lemma {:induction false} RankedByBoth(rows: seq<Observation>, a: seq<real>, b: seq<real>)
    requires |rows| == |a| == |b| && RankedBy(rows, a)
    ensures RankedBy(rows, b) <==> StableOrder(b) == StableOrder(a)
  {
    RanksDecideOrder(a, b);
  }

  lemma {:induction false} BatchRowsInOrder(narrow: Narrow, f: Frame, scores: seq<real>, start: nat)
    requires RowsFine(narrow, f, |f.results|) && scores == Scores(f.results) && f.ranks == Ranks(scores)
    ensures forall i :: 0 <= i < |scores| ==> narrow(scores[i]).Some?
    ensures InOrder(RowPrefix(narrow, f, start, |f.results|), Narrowed(narrow, scores), |f.results|, f.width,
                    f.batch.track)
    ensures RankedBy(RowPrefix(narrow, f, start, |f.results|), scores)
  {
    var rows := RowPrefix(narrow, f, start, |f.results|);
    forall i | 0 <= i < |f.results|
      ensures narrow(scores[i]).Some? && rows[i].native.value == narrow(scores[i]).value
      ensures rows[i].rowPosition == i && rows[i].batchSize == |f.results| && rows[i].batchWidth == f.width
              && rows[i].track == f.batch.track
      ensures rows[i].stableRank == rows[i].sortedIndex == f.ranks[i]
    {
      RowAt(narrow, f, start, |f.results|, i);
    }
  }

  /** The batch passes iff it has at most eight rows and rounding keeps their order. */
  lemma {:induction false} BatchAcceptedIff(narrow: Narrow, f: Frame, scores: seq<real>, start: nat)
    requires RowsFine(narrow, f, |f.results|) && scores == Scores(f.results) && f.ranks == Ranks(scores)
             && f.results != []
    ensures BatchOk(RowPrefix(narrow, f, start, |f.results|)) <==> |f.results| <= 8 && OrderSurvives(narrow, scores)
  {
    BatchRowsInOrder(narrow, f, scores, start);
    var rows, cells := RowPrefix(narrow, f, start, |f.results|), Narrowed(narrow, scores);
    InOrderBatchOk(rows, cells, |f.results|, f.width, f.batch.track);
    RankedByBoth(rows, scores, cells);
  }

  // ----- grouping the rows of a whole schedule -----

  lemma {:induction false} RowsOfConcat(a: seq<Observation>, b: seq<Observation>, id: string)
    ensures RowsOf(a + b, id) == RowsOf(a, id) + RowsOf(b, id)
    decreases |b|
  {
    if b == [] {
      assert a + b == a;
    } else {
      var front := b[..|b| - 1];
      assert (a + b)[..|a + b| - 1] == a + front;
      RowsOfConcat(a, front, id);
    }
  }

  lemma {:induction false} RowsOfSame(rows: seq<Observation>, id: string)
    requires forall i :: 0 <= i < |rows| ==> rows[i].batchId == id
    ensures RowsOf(rows, id) == rows
    decreases |rows|
  {
    if rows != [] {
      RowsOfSame(rows[..|rows| - 1], id);
    }
  }

  lemma {:induction false} RowIsThere(records: seq<Observation>, i: nat)
    requires i < |records|
    ensures RowsOf(records, records[i].batchId) != []
    decreases |records|
  {
    if i < |records| - 1 {
      RowIsThere(records[..|records| - 1], i);
    }
  }

  /** The rows of one batch: one ID, and as many rows as each of them says. */
  predicate Uniform(piece: Piece) {
    piece != [] && forall i :: 0 <= i < |piece| ==>
          piece[i].batchId == piece[0].batchId && piece[i].batchSize == |piece|
  }

  predicate AllUniform(pieces: seq<Piece>) {
    forall k :: 0 <= k < |pieces| ==> Uniform(pieces[k])
  }

  function IdAt(pieces: seq<Piece>, k: nat): string
    requires AllUniform(pieces) && k < |pieces|
  {
    pieces[k][0].batchId
  }

  lemma {:induction false} LastPiece(pieces: seq<Piece>, id: string)
    requires AllUniform(pieces) && pieces != []
    ensures AllUniform(pieces[..|pieces| - 1])
    ensures RowsOf(Flat(pieces), id)
            == RowsOf(Flat(pieces[..|pieces| - 1]), id)
                + (if IdAt(pieces, |pieces| - 1) == id then pieces[|pieces| - 1] else [])
  {
    var front, last := pieces[..|pieces| - 1], pieces[|pieces| - 1];
    assert forall k :: 0 <= k < |front| ==> front[k] == pieces[k];
    RowsOfConcat(Flat(front), last, id);
    if last[0].batchId == id {
      RowsOfSame(last, id);
    } else {
      NoRowsOf(last, id);
    }
  }

  lemma {:induction false} NoPiece(pieces: seq<Piece>, id: string)
    requires AllUniform(pieces) && forall k :: 0 <= k < |pieces| ==> IdAt(pieces, k) != id
    ensures RowsOf(Flat(pieces), id) == []
    decreases |pieces|
  {
    if pieces != [] {
      LastPiece(pieces, id);
      var front := pieces[..|pieces| - 1];
      assert forall k :: 0 <= k < |front| ==> IdAt(front, k) == IdAt(pieces, k);
      NoPiece(front, id);
    }
  }

  /** The rows under the ID of a batch are its own, when no other batch has that ID. */
  lemma {:induction false} OnlyPiece(pieces: seq<Piece>, k: nat)
    requires AllUniform(pieces) && k < |pieces|
    requires forall j :: 0 <= j < |pieces| && j != k ==> IdAt(pieces, j) != IdAt(pieces, k)
    ensures RowsOf(Flat(pieces), IdAt(pieces, k)) == pieces[k]
    decreases |pieces|
  {
    LastPiece(pieces, IdAt(pieces, k));
    var front := pieces[..|pieces| - 1];
    assert forall j :: 0 <= j < |front| ==> IdAt(front, j) == IdAt(pieces, j);
    if k < |front| {
      OnlyPiece(front, k);
    } else {
      NoPiece(front, IdAt(pieces, k));
    }
  }

  lemma {:induction false} AtLeastOne(pieces: seq<Piece>, f: nat)
    requires AllUniform(pieces) && f < |pieces|
    ensures |RowsOf(Flat(pieces), IdAt(pieces, f))| >= |pieces[f]| > 0
    decreases |pieces|
  {
    LastPiece(pieces, IdAt(pieces, f));
    if f < |pieces| - 1 {
      AtLeastOne(pieces[..|pieces| - 1], f);
    }
  }

  lemma {:induction false} AtLeastBoth(pieces: seq<Piece>, f: nat, g: nat)
    requires AllUniform(pieces) && f < g < |pieces| && IdAt(pieces, f) == IdAt(pieces, g)
    ensures |RowsOf(Flat(pieces), IdAt(pieces, f))| >= |pieces[f]| + |pieces[g]|
    decreases |pieces|
  {
    LastPiece(pieces, IdAt(pieces, f));
    if g < |pieces| - 1 {
      AtLeastBoth(pieces[..|pieces| - 1], f, g);
    } else {
      AtLeastOne(pieces[..|pieces| - 1], f);
    }
  }

  /** The first row under an ID states the size of a batch with that ID. */
  lemma {:induction false} FirstRow(pieces: seq<Piece>, id: string) returns (f: nat)
    requires AllUniform(pieces) && RowsOf(Flat(pieces), id) != []
    ensures f < |pieces| && IdAt(pieces, f) == id && RowsOf(Flat(pieces), id)[0].batchSize == |pieces[f]|
    decreases |pieces|
  {
    LastPiece(pieces, id);
    if RowsOf(Flat(pieces[..|pieces| - 1]), id) != [] {
      f := FirstRow(pieces[..|pieces| - 1], id);
    } else {
      f := |pieces| - 1;
    }
  }

  /** Two batches under one ID are refused: the group is longer than its first row says. */
  lemma {:induction false} RepeatedIdRefused(pieces: seq<Piece>, j: nat, k: nat)
    requires AllUniform(pieces) && j < k < |pieces| && IdAt(pieces, j) == IdAt(pieces, k)
    ensures !NamedBatchOk(Flat(pieces), IdAt(pieces, k))
  {
    var rows := RowsOf(Flat(pieces), IdAt(pieces, k));
    if rows != [] {
      var f := FirstRow(pieces, IdAt(pieces, k));
      if f < k {
        AtLeastBoth(pieces, f, k);
      } else {
        AtLeastBoth(pieces, j, f);
      }
    }
  }

  lemma {:induction false} BatchesOkAt(pieces: seq<Piece>, k: nat)
    requires AllUniform(pieces) && k < |pieces| && BatchesOk(Flat(pieces))
    ensures NamedBatchOk(Flat(pieces), IdAt(pieces, k))
  {
    AtLeastOne(pieces, k);
    RowsComeFrom(Flat(pieces), IdAt(pieces, k));
  }

  lemma {:induction false} RowHasPiece(pieces: seq<Piece>, i: nat) returns (k: nat)
    requires AllUniform(pieces) && i < |Flat(pieces)|
    ensures k < |pieces| && Flat(pieces)[i].batchId == IdAt(pieces, k)
  {
    RowIsThere(Flat(pieces), i);
    k := FirstRow(pieces, Flat(pieces)[i].batchId);
  }

  predicate IdsDistinct(pieces: seq<Piece>)
    requires AllUniform(pieces)
  {
    forall j, k :: 0 <= j < k < |pieces| ==> IdAt(pieces, j) != IdAt(pieces, k)
  }

  /** Grouping by ID finds every batch again, and all pass iff IDs are distinct and each passes. */
  lemma {:induction false} GroupingIff(pieces: seq<Piece>)
    requires AllUniform(pieces)
    ensures BatchesOk(Flat(pieces)) <==> IdsDistinct(pieces) && forall k :: 0 <= k < |pieces| ==> BatchOk(pieces[k])
  {
    if BatchesOk(Flat(pieces)) {
      forall j, k | 0 <= j < k < |pieces| ensures IdAt(pieces, j) != IdAt(pieces, k) {
        BatchesOkAt(pieces, k);
        if IdAt(pieces, j) == IdAt(pieces, k) {
          RepeatedIdRefused(pieces, j, k);
        }
      }
      forall k | 0 <= k < |pieces| ensures BatchOk(pieces[k]) {
        BatchesOkAt(pieces, k);
        OnlyPiece(pieces, k);
      }
    }
    if IdsDistinct(pieces) && forall k :: 0 <= k < |pieces| ==> BatchOk(pieces[k]) {
      forall i | 0 <= i < |Flat(pieces)| ensures NamedBatchOk(Flat(pieces), Flat(pieces)[i].batchId) {
        var k := RowHasPiece(pieces, i);
        OnlyPiece(pieces, k);
      }
    }
  }

  // ----- the whole schedule -----

  /** Numbered from start, and each right in itself. */
  predicate Passing(narrow: Narrow, rows: seq<Observation>, start: nat, cases: set<CaseId>, encodings: Encodings)
  {
    forall i :: 0 <= i < |rows| ==> rows[i].observationId == start + i && RowOk(narrow, rows[i], cases, encodings)
  }

  lemma {:induction false} PassingConcat(narrow: Narrow, a: seq<Observation>, b: seq<Observation>, cases: set<CaseId>,
                                         encodings: Encodings)
    requires Passing(narrow, a, 0, cases, encodings) && Passing(narrow, b, |a|, cases, encodings)
    ensures Passing(narrow, a + b, 0, cases, encodings)
  {
    var both := a + b;
    forall i | 0 <= i < |both| ensures both[i].observationId == i && RowOk(narrow, both[i], cases, encodings) {
      if i < |a| {
        assert both[i] == a[i] && RowOk(narrow, a[i], cases, encodings);
      } else {
        assert both[i] == b[i - |a|] && RowOk(narrow, b[i - |a|], cases, encodings);
      }
    }
  }

  lemma {:induction false} PassingIsOk(narrow: Narrow, rows: seq<Observation>, cases: set<CaseId>, encodings: Encodings)
    requires Passing(narrow, rows, 0, cases, encodings)
    ensures RecordsOk(Checker(narrow, cases, encodings), rows, |rows|)
  {
    forall i | 0 <= i < |rows| ensures Checker(narrow, cases, encodings)(rows[i]) {
      assert RowOk(narrow, rows[i], cases, encodings);
    }
  }

  predicate GenuineFrame(frame: Option<Frame>, encodings: Encodings) {
    frame.Some? && Genuine(frame.value, encodings)
  }

  lemma {:induction false} PieceRow(narrow: Narrow, f: Frame, start: nat, i: nat)
    requires RowsFine(narrow, f, |f.results|) && i < |f.results|
    ensures RowPrefix(narrow, f, start, |f.results|)[i].observationId == start + i
    ensures RowPrefix(narrow, f, start, |f.results|)[i].batchId == f.batch.batchId
    ensures RowPrefix(narrow, f, start, |f.results|)[i].batchSize == |f.results|
  {
    RowAt(narrow, f, start, |f.results|, i);
  }

  lemma {:induction false} PieceRowOk(narrow: Narrow, f: Frame, start: nat, i: nat, cases: set<CaseId>,
                                      encodings: Encodings)
    requires Narrowing(narrow) && Sound(encodings, cases) && Genuine(f, encodings) && RowsFine(narrow, f, |f.results|)
             && i < |f.results|
    ensures RowOk(narrow, RowPrefix(narrow, f, start, |f.results|)[i], cases, encodings)
  {
    assert RowFine(narrow, f.results[i], f.width);
    RowAt(narrow, f, start, |f.results|, i);
    ObservedRowOk(narrow, f, i, start + i, RowPrefix(narrow, f, start, |f.results|)[i], encodings, cases);
  }

  /** One batch of the producer: each row passes. */
  lemma {:induction false} PieceOfProducer(narrow: Narrow, f: Frame, start: nat, cases: set<CaseId>,
                                           encodings: Encodings)
    requires Narrowing(narrow) && Sound(encodings, cases) && Genuine(f, encodings) && RowsFine(narrow, f, |f.results|)
    ensures Passing(narrow, RowPrefix(narrow, f, start, |f.results|), start, cases, encodings)
  {
    var rows := RowPrefix(narrow, f, start, |f.results|);
    forall i | 0 <= i < |rows| ensures rows[i].observationId == start + i && RowOk(narrow, rows[i], cases, encodings) {
      PieceRow(narrow, f, start, i);
      PieceRowOk(narrow, f, start, i, cases, encodings);
    }
  }

  lemma {:induction false} PieceIsUniform(narrow: Narrow, f: Frame, start: nat)
    requires RowsFine(narrow, f, |f.results|) && f.results != []
    ensures Uniform(RowPrefix(narrow, f, start, |f.results|))
            && RowPrefix(narrow, f, start, |f.results|)[0].batchId == f.batch.batchId
  {
    var rows := RowPrefix(narrow, f, start, |f.results|);
    forall i | 0 <= i < |rows| ensures rows[i].batchId == f.batch.batchId && rows[i].batchSize == |rows| {
      PieceRow(narrow, f, start, i);
    }
  }

  predicate AllGenuine(frames: seq<Option<Frame>>, encodings: Encodings) {
    forall k :: 0 <= k < |frames| ==> GenuineFrame(frames[k], encodings)
  }

  lemma {:induction false} FineDown(narrow: Narrow, frames: seq<Option<Frame>>, n: nat)
    requires n < |frames| && FineUpTo(narrow, frames, n + 1)
    ensures FineUpTo(narrow, frames, n) && BatchFine(narrow, frames[n])
  {
    assert BatchFine(narrow, frames[n]);
    forall k | 0 <= k < n ensures BatchFine(narrow, frames[k]) {
      assert BatchFine(narrow, frames[k]);
    }
  }

  lemma {:induction false} PieceAt(narrow: Narrow, frames: seq<Option<Frame>>, n: nat, k: nat) returns (start: nat)
    requires k < n <= |frames| && FineUpTo(narrow, frames, n)
    ensures BatchFine(narrow, frames[k]) && PiecesOf(narrow, frames, n)[k] == BatchRows(narrow, frames[k], start)
  {
    FineDown(narrow, frames, n - 1);
    if k < n - 1 {
      start := PieceAt(narrow, frames, n - 1, k);
    } else {
      start := |Flat(PiecesOf(narrow, frames, n - 1))|;
    }
  }

  lemma {:induction false} ProducerPieces(narrow: Narrow, frames: seq<Option<Frame>>, k: nat, encodings: Encodings)
    requires AllGenuine(frames, encodings)
    requires FineUpTo(narrow, frames, |frames|) && k < |frames|
    ensures Uniform(PiecesOf(narrow, frames, |frames|)[k])
    ensures PiecesOf(narrow, frames, |frames|)[k][0].batchId == frames[k].value.batch.batchId
    ensures BatchOk(PiecesOf(narrow, frames, |frames|)[k])
            <==> |frames[k].value.results| <= 8 && OrderSurvives(narrow, Scores(frames[k].value.results))
  {
    var start := PieceAt(narrow, frames, |frames|, k);
    assert GenuineFrame(frames[k], encodings);
    PieceIsUniform(narrow, frames[k].value, start);
    BatchAcceptedIff(narrow, frames[k].value, Scores(frames[k].value.results), start);
  }

  lemma {:induction false} BatchPasses(narrow: Narrow, frame: Option<Frame>, start: nat, cases: set<CaseId>,
                                       encodings: Encodings)
    requires Narrowing(narrow) && Sound(encodings, cases) && GenuineFrame(frame, encodings) && BatchFine(narrow, frame)
    ensures Passing(narrow, BatchRows(narrow, frame, start), start, cases, encodings)
  {
    PieceOfProducer(narrow, frame.value, start, cases, encodings);
  }

  lemma {:induction false} ProducerPasses(narrow: Narrow, frames: seq<Option<Frame>>, n: nat, cases: set<CaseId>,
                                          encodings: Encodings)
    requires Narrowing(narrow) && Sound(encodings, cases) && AllGenuine(frames, encodings)
    requires n <= |frames| && FineUpTo(narrow, frames, n)
    ensures Passing(narrow, Rows(narrow, frames, n), 0, cases, encodings)
  {
    if n > 0 {
      FineDown(narrow, frames, n - 1);
      var before := Rows(narrow, frames, n - 1);
      var piece := BatchRows(narrow, frames[n - 1], |before|);
      assert Rows(narrow, frames, n) == before + piece by {
        RowsGrow(narrow, frames, n - 1);
      }
      assert Passing(narrow, before, 0, cases, encodings) by {
        ProducerPasses(narrow, frames, n - 1, cases, encodings);
      }
      assert Passing(narrow, piece, |before|, cases, encodings) by {
        BatchPasses(narrow, frames[n - 1], |before|, cases, encodings);
      }
      PassingConcat(narrow, before, piece, cases, encodings);
    }
  }

  /** What a schedule needs for its observations to be accepted; known before any is recorded. */
  predicate Acceptable(narrow: Narrow, schedule: seq<Batch>, results: seq<seq<Result>>)
    requires |results| == |schedule|
  {
    && (forall j, k :: 0 <= j < k < |schedule| ==> schedule[j].batchId != schedule[k].batchId)
    && (forall k :: 0 <= k < |schedule| ==> |results[k]| <= 8 && KeptApart(narrow, Scores(results[k])))
  }

  /** Every batch got the results infer gives for its encodings. */
  predicate RunByInfer(schedule: seq<Batch>, encodings: Encodings, results: seq<seq<Result>>) {
    && |results| == |schedule|
    && (forall k :: 0 <= k < |schedule| ==>
          Known(schedule[k], encodings)
              && Inferred(schedule[k].track, BatchEncodings(schedule[k], encodings), results[k]))
  }

  lemma {:induction false} FramesAreGenuine(narrow: Narrow, schedule: seq<Batch>, encodings: Encodings,
                                            results: seq<seq<Result>>)
    requires RunByInfer(schedule, encodings, results)
    requires FineUpTo(narrow, Frames(schedule, encodings, results), |schedule|)
    ensures AllGenuine(Frames(schedule, encodings, results), encodings)
    ensures forall k :: 0 <= k < |schedule| ==>
              var frame := Frames(schedule, encodings, results)[k];
              frame.Some? && frame.value.batch == schedule[k] && frame.value.results == results[k]
  {
    var frames := Frames(schedule, encodings, results);
    forall k | 0 <= k < |schedule|
      ensures GenuineFrame(frames[k], encodings)
      ensures frames[k].value.batch == schedule[k] && frames[k].value.results == results[k]
    {
      assert BatchFine(narrow, frames[k]);
      assert frames[k] == FrameOf(schedule[k], encodings, results[k]);
    }
  }

  /**
   Every observation the producer records passes by itself, for any encodings, batches and widths;
   and all of them pass together if and only if the schedule is acceptable.
   */
  lemma {:induction false} ProducerMeetsChecker(narrow: Narrow, schedule: seq<Batch>, encodings: Encodings,
                                                results: seq<seq<Result>>, cases: set<CaseId>)
    requires Narrowing(narrow) && Sound(encodings, cases) && RunByInfer(schedule, encodings, results)
    requires FineUpTo(narrow, Frames(schedule, encodings, results), |schedule|)
    ensures var records := Rows(narrow, Frames(schedule, encodings, results), |schedule|);
            RecordsOk(Checker(narrow, cases, encodings), records, |records|)
                && (BatchesOk(records) <==> Acceptable(narrow, schedule, results))
  {
    var frames := Frames(schedule, encodings, results);
    var pieces := PiecesOf(narrow, frames, |schedule|);
    FramesAreGenuine(narrow, schedule, encodings, results);
    ProducerPasses(narrow, frames, |schedule|, cases, encodings);
    PassingIsOk(narrow, Rows(narrow, frames, |schedule|), cases, encodings);
    forall k | 0 <= k < |pieces|
      ensures Uniform(pieces[k]) && pieces[k][0].batchId == schedule[k].batchId
      ensures BatchOk(pieces[k]) <==> |results[k]| <= 8 && KeptApart(narrow, Scores(results[k]))
    {
      ProducerPieces(narrow, frames, k, encodings);
      SurvivesIffApart(narrow, Scores(results[k]));
    }
    GroupingIff(pieces);
    AcceptableIff(narrow, schedule, results, pieces);
  }

  lemma {:induction false} AcceptableIff(narrow: Narrow, schedule: seq<Batch>, results: seq<seq<Result>>,
                                         pieces: seq<Piece>)
    requires |schedule| == |results| == |pieces| && AllUniform(pieces)
    requires forall k :: 0 <= k < |pieces| ==> IdAt(pieces, k) == schedule[k].batchId
    requires forall k :: 0 <= k < |pieces| ==>
               (BatchOk(pieces[k]) <==> |results[k]| <= 8 && KeptApart(narrow, Scores(results[k])))
    ensures Acceptable(narrow, schedule, results)
            <==> IdsDistinct(pieces) && forall k :: 0 <= k < |pieces| ==> BatchOk(pieces[k])
  {}

  /** What the model computes is there for every row of every known, nonempty batch. */
  predicate Computed(schedule: seq<Batch>, encodings: Encodings, numbers: seq<seq<Numbers>>) {
    && |numbers| == |schedule|
    && (forall k :: 0 <= k < |schedule| ==>
          Known(schedule[k], encodings) && schedule[k].caseIds != [] && |numbers[k]| == |schedule[k].caseIds|)
  }

  predicate BatchInferred(batch: Batch, encodings: Encodings, numbers: seq<Numbers>, results: seq<Result>) {
    match FrameOf(batch, encodings, results)
    case None => false
    case Some(frame) =>
      && Inferred(batch.track, frame.encodings, results) && |numbers| == |results|
      && (forall i :: 0 <= i < |results| ==> results[i].numbers == numbers[i])
  }

  method InferBatch(batch: Batch, encodings: Encodings, numbers: seq<Numbers>, cases: set<CaseId>)
    returns (results: seq<Result>)
    requires Sound(encodings, cases) && Known(batch, encodings) && batch.caseIds != [] && |numbers| == |batch.caseIds|
    ensures BatchInferred(batch, encodings, numbers, results)
  {
    assert forall i :: 0 <= i < |batch.caseIds| ==>
             SoundAt(encodings, cases, EncodingId(batch.caseIds[i], batch.track));
    var inferred := Infer(batch.track, BatchEncodings(batch, encodings), numbers);
    results := inferred.value;
  }

  /** The results so far are those of infer, batch by batch. */
  predicate AllInferred(schedule: seq<Batch>, encodings: Encodings, numbers: seq<seq<Numbers>>,
                        results: seq<seq<Result>>) {
    && |results| <= |schedule| == |numbers|
    && (forall k :: 0 <= k < |results| ==> BatchInferred(schedule[k], encodings, numbers[k], results[k]))
  }

  lemma {:induction false} InferredGrows(schedule: seq<Batch>, encodings: Encodings, numbers: seq<seq<Numbers>>,
                                         results: seq<seq<Result>>, last: seq<Result>)
    requires AllInferred(schedule, encodings, numbers, results) && |results| < |schedule|
    requires BatchInferred(schedule[|results|], encodings, numbers[|results|], last)
    ensures AllInferred(schedule, encodings, numbers, results + [last])
  {
    var more := results + [last];
    forall k | 0 <= k < |more| ensures BatchInferred(schedule[k], encodings, numbers[k], more[k]) {
      if k < |results| {
        assert more[k] == results[k];
      } else {
        assert more[k] == last;
      }
    }
  }

  lemma {:induction false} InferredIsRun(schedule: seq<Batch>, encodings: Encodings, numbers: seq<seq<Numbers>>,
                                         results: seq<seq<Result>>)
    requires AllInferred(schedule, encodings, numbers, results) && |results| == |schedule|
    ensures RunByInfer(schedule, encodings, results)
  {
    forall k | 0 <= k < |schedule|
      ensures Known(schedule[k], encodings)
              && Inferred(schedule[k].track, BatchEncodings(schedule[k], encodings), results[k])
    {
      assert BatchInferred(schedule[k], encodings, numbers[k], results[k]);
    }
  }

  /** infer, called once for every batch. */
  method InferAll(schedule: seq<Batch>, encodings: Encodings, numbers: seq<seq<Numbers>>, cases: set<CaseId>)
    returns (results: seq<seq<Result>>)
    requires Sound(encodings, cases) && Computed(schedule, encodings, numbers)
    ensures |results| == |schedule| && AllInferred(schedule, encodings, numbers, results)
  {
    results := [];
    while |results| < |schedule|
      invariant AllInferred(schedule, encodings, numbers, results)
    {
      var k := |results|;
      var inferred := InferBatch(schedule[k], encodings, numbers[k], cases);
      InferredGrows(schedule, encodings, numbers, results, inferred);
      results := results + [inferred];
    }
  }

  /** Producer and checker in a row: unless the producer refuses, the checker's answer is known in advance. */
  method ReplayAndCheck(narrow: Narrow, schedule: seq<Batch>, encodings: Encodings, numbers: seq<seq<Numbers>>,
                        cases: set<CaseId>)
    returns (accepted: Option<bool>, results: seq<seq<Result>>)
    requires Narrowing(narrow) && Sound(encodings, cases) && Computed(schedule, encodings, numbers)
    ensures RunByInfer(schedule, encodings, results)
    ensures AllInferred(schedule, encodings, numbers, results)
    ensures accepted.Some? <==> Produced(narrow, schedule, encodings, results)
    ensures accepted.Some? ==> (accepted.value <==> Acceptable(narrow, schedule, results))
  {
    results := InferAll(schedule, encodings, numbers, cases);
    InferredIsRun(schedule, encodings, numbers, results);
    var observations := ExecuteSchedule(narrow, schedule, encodings, results);
    accepted := None;
    if observations.Some? {
      ProducerMeetsChecker(narrow, schedule, encodings, results, cases);
      var ok := ValidateObservations(narrow, observations.value, cases, encodings);
      accepted := Some(ok);
    }
  }

  /** Scores that are float32 numbers already cannot collide. */
  lemma {:induction false} Float32ScoresApart(narrow: Narrow, scores: seq<real>)
    requires forall i :: 0 <= i < |scores| ==> narrow(scores[i]) == Some(scores[i])
    ensures KeptApart(narrow, scores)
  {
    forall i, j | 0 <= i < j < |scores| ensures !Collide(narrow, scores, i, j) {}
  }

  /** 2 to the 24th: one over the distance of neighbouring float32 numbers from one half to one. */
  const GRID: real := 16777216.0

  /** Rounding to the nearest multiple of 1 / GRID; from one half to one that is rounding to float32. */
  function Nearest(x: real): Option<real> {
    Some((x * GRID + 0.5).Floor as real / GRID)
  }

  lemma {:induction false} NearestOfMultiple(n: int)
    ensures Nearest(n as real / GRID) == Some(n as real / GRID)
  {
    assert n as real / GRID * GRID == n as real;
    assert (n as real + 0.5).Floor == n;
  }

  lemma {:induction false} NearestKeepsOrder(x: real, y: real)
    requires x <= y
    ensures Nearest(x).value <= Nearest(y).value
  {
    var a, b := (x * GRID + 0.5).Floor, (y * GRID + 0.5).Floor;
    assert a <= b;
  }

  lemma {:induction false} NearestNarrows()
    ensures Narrowing(Nearest)
  {
    forall x ensures Rounded(Nearest, Rounded(Nearest, x).value) == Rounded(Nearest, x) {
      NearestOfMultiple((x * GRID + 0.5).Floor);
    }
    forall x, y | x <= y ensures Rounded(Nearest, x).value <= Rounded(Nearest, y).value {
      NearestKeepsOrder(x, y);
    }
    NearestOfMultiple(-16777216);
    NearestOfMultiple(0);
    NearestOfMultiple(16777216);
  }

  /** A score of one half and one a quarter step above it are ranked apart, and stored as the same number. */
  lemma {:induction false} FinerScoresRefused()
    ensures Narrowing(Nearest) && !KeptApart(Nearest, [0.5, 0.5 + 0.25 / GRID])
    ensures !OrderSurvives(Nearest, [0.5, 0.5 + 0.25 / GRID])
  {
    NearestNarrows();
    var scores := [0.5, 0.5 + 0.25 / GRID];
    assert scores[0] * GRID + 0.5 == 8388608.5 && scores[1] * GRID + 0.5 == 8388608.75;
    assert 8388608.5.Floor == 8388608 && 8388608.75.Floor == 8388608;
    assert Collide(Nearest, scores, 0, 1);
    SurvivesIffApart(Nearest, scores);
  }
}
