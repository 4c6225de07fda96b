/**
 The paid-request collector (scripts/collect_reranker_cloud_baseline.py): an intent ledger written
 before every request, a response ledger written after it, and a hard budget. Files are modelled with
 torn lines and a missing last newline, because an append can stop anywhere.
 */
module PaidLedger {
  import opened Foundations

  const PROMPT_OVERHEAD_TOKENS_PER_PAIR: nat := 256

  type Fingerprint = string

  // ----- durable JSONL files -----

  /** A line as the reader finds it: one whole record, or anything else. */
  datatype Line<T> = Whole(value: T) | Torn

  /** The separators that canonical_json writes as they are and splitlines() breaks a line at. */
  const SEPARATORS: set<char> := {'\U{0085}', '\U{2028}', '\U{2029}'}

  /** The text is written and read back as part of one line. */
  predicate OneLine(text: string) {
    forall i :: 0 <= i < |text| ==> text[i] !in SEPARATORS
  }

  /** A record as the reader will find it: broken up when its text holds a separator. */
  function LineOf<T>(record: T, oneLine: bool): Line<T> {
    if oneLine then Whole(record) else Torn
  }

  /** terminated: the last line ends with a newline. */
  datatype File<T> = Missing | Present(lines: seq<Line<T>>, terminated: bool)

  predicate HasTorn<T>(file: File<T>) {
    file.Present? && exists i :: 0 <= i < |file.lines| && file.lines[i].Torn?
  }

  /** _load_jsonl_strict: None when a line is not one whole record. */
  function Records<T>(file: File<T>): Option<seq<T>> {
    if file.Missing? then Some([])
    else if HasTorn(file) then None
    else Some(seq(|file.lines|, i requires 0 <= i < |file.lines| => file.lines[i].value))
  }

  /** The next record gets a line of its own. */
  predicate Appendable<T>(file: File<T>) {
    file.Missing? || file.terminated || file.lines == []
  }

  /** The file after a completed append: a line without newline swallows the new one. */
  function Appended<T>(file: File<T>, line: Line<T>): File<T> {
    if file.Missing? then Present([line], true)
    else if file.terminated || file.lines == [] then Present(file.lines + [line], true)
    else Present(file.lines[..|file.lines| - 1] + [Torn], true)
  }

  /** The file after an append that stopped early: nothing, a fragment, or all but the newline. */
  function Fragment<T>(file: File<T>, line: Line<T>, allButNewline: bool): File<T> {
    var lines := if file.Missing? then [] else file.lines;
    if file.Missing? || file.terminated || lines == []
    then Present(lines + [if allButNewline then line else Torn], false)
    else Present(lines[..|lines| - 1] + [Torn], false)
  }

  function Created<T>(file: File<T>): File<T> {
    if file.Missing? then Present([], true) else file
  }

  predicate MayFollow<T(==)>(before: File<T>, line: Line<T>, after: File<T>) {
    || after == before
    || after == Created(before)
    || after == Fragment(before, line, false)
    || after == Fragment(before, line, true)
    || after == Appended(before, line)
  }

  /** The file once offset of the line's length bytes, newline included, are written. */
  function Written<T>(file: File<T>, line: Line<T>, offset: nat, length: nat): File<T> {
    if offset == 0 then Created(file)
    else if offset + 1 < length then Fragment(file, line, false)
    else if offset < length then Fragment(file, line, true)
    else Appended(file, line)
  }

  /** How a step ends when it is disturbed. */
  method Disturbed() returns (outcome: Outcome)
    ensures outcome != Ok
  {
    var died: bool := *;
    outcome := if died then Died else Raised;
  }

  /** _append_durable: the write loop may take any number of bytes at a time, and raise or die between any two. */
  method AppendDurable<T(==)>(file: File<T>, line: Line<T>, calm: bool) returns (outcome: Outcome, after: File<T>)
    ensures outcome == Ok ==> after == Appended(file, line)
    ensures calm ==> outcome == Ok
    ensures MayFollow(file, line, after)
  {
    after := file;
    var length: nat :| length >= 2;
    var offset: nat, refused: bool := 0, *;
    if refused && !calm {
      outcome := Disturbed();
      return;
    }
    after := Created(file);
    while offset < length
      invariant offset <= length && after == Written(file, line, offset, length)
    {
      var stopped: bool := *;
      if stopped && !calm {
        outcome := Disturbed();
        return;
      }
      var count: nat :| 1 <= count <= length - offset;
      offset := offset + count;
      after := Written(file, line, offset, length);
    }
    var unsynced: bool := *;
    outcome := Ok;
    if unsynced && !calm {
      outcome := Disturbed();
    }
  }

  // ----- plans -----

  /**
   One corpus group and its request. query: the text an intent keeps (query_id, provider, model); labels:
   what only a row keeps (source_language, document ids, relevance, instruction). textLabels: query_id and
   source_language are strings. lengths: bytes of query and document, pair by pair.
   */
  datatype Group = Group(current: Fingerprint, legacy: Fingerprint, query: string, labels: string, textLabels: bool,
                         lengths: seq<(nat, nat)>, instruction: nat)

  /** estimate_tokens: bytes of every pair plus a fixed overhead. */
  function EstimateTokens(lengths: seq<(nat, nat)>, instruction: nat): (tokens: nat)
    ensures lengths != [] ==> tokens > 0
  {
    if lengths == [] then 0
    else EstimateTokens(lengths[1..], instruction)
         + lengths[0].0 + lengths[0].1 + instruction + PROMPT_OVERHEAD_TOKENS_PER_PAIR
  }

  /** An estimate is the sum over the pairs, each with its query, its document, the instruction and the overhead. */
  lemma {:induction false} EstimateMeaning(a: seq<(nat, nat)>, pair: (nat, nat), b: seq<(nat, nat)>, instruction: nat)
    ensures EstimateTokens(a + [pair] + b, instruction)
            == EstimateTokens(a + b, instruction) + pair.0 + pair.1 + instruction + 256
    ensures EstimateTokens([], instruction) == 0
  {
    if a == [] {
      assert a + [pair] + b == [pair] + b && a + b == b && ([pair] + b)[1..] == b;
    } else {
      assert (a + [pair] + b)[1..] == a[1..] + [pair] + b && (a + b)[1..] == a[1..] + b;
      EstimateMeaning(a[1..], pair, b, instruction);
    }
  }

  datatype Plan = Plan(current: Fingerprint, legacy: Fingerprint, query: string, labels: string, textLabels: bool,
                       pairs: nat, estimate: nat)

  function PlanOf(group: Group): Plan {
    Plan(group.current, group.legacy, group.query, group.labels, group.textLabels, |group.lengths|,
         EstimateTokens(group.lengths, group.instruction))
  }

  type Planned = map<Fingerprint, Plan>

  /** A plan list and its lookup table, as the planning loop leaves them. */
  predicate PlansAgree(plans: seq<Plan>, planned: Planned) {
    && (forall i :: 0 <= i < |plans| ==> plans[i].current in planned && planned[plans[i].current] == plans[i])
    && (forall i, j :: 0 <= i < j < |plans| ==> plans[i].current != plans[j].current)
    && (forall i :: 0 <= i < |plans| ==> plans[i].pairs > 0 && plans[i].estimate > 0)
    && (forall fp :: fp in planned ==> planned[fp] in plans && (fp == planned[fp].current || fp == planned[fp].legacy))
  }

  /** The later group shares no fingerprint with the earlier one, under either schema. */
  predicate Apart(a: Group, b: Group) {
    b.current != a.current && b.current != a.legacy && b.legacy != a.current && b.legacy != a.legacy
  }

  /** The first n groups can be planned: none is empty and no two clash. */
  predicate Plannable(groups: seq<Group>, n: nat)
    requires n <= |groups|
  {
    && (forall i :: 0 <= i < n ==> groups[i].lengths != [])
    && (forall i, j :: 0 <= i < j < n ==> Apart(groups[i], groups[j]))
  }

  /** The plans of the first n groups, all of them under both of their fingerprints. */
  predicate PlannedUpTo(groups: seq<Group>, n: nat, plans: seq<Plan>, planned: Planned) {
    && |plans| == n <= |groups|
    && (forall i :: 0 <= i < n ==>
          plans[i] == PlanOf(groups[i]) && groups[i].current in planned && groups[i].legacy in planned)
  }

  lemma {:induction false} PlanClash(groups: seq<Group>, k: nat, plans: seq<Plan>, planned: Planned, fp: Fingerprint)
    requires k < |groups| && PlannedUpTo(groups, k, plans, planned) && PlansAgree(plans, planned)
    requires fp in planned && (fp == groups[k].current || fp == groups[k].legacy)
    ensures !Plannable(groups, |groups|)
  {
    var i :| 0 <= i < |plans| && plans[i] == planned[fp];
    assert !Apart(groups[i], groups[k]);
  }

  /** The lookup table of the first n groups, later groups over earlier ones. */
  function Table(groups: seq<Group>, n: nat): Planned
    requires n <= |groups|
  {
    if n == 0 then map[] else
      var plan := PlanOf(groups[n - 1]);
      Table(groups, n - 1)[plan.current := plan][plan.legacy := plan]
  }

  function PlansOf(groups: seq<Group>): (plans: seq<Plan>)
    ensures |plans| == |groups| && forall i :: 0 <= i < |plans| ==> plans[i] == PlanOf(groups[i])
  {
    seq(|groups|, i requires 0 <= i < |groups| => PlanOf(groups[i]))
  }

  lemma {:induction false} PlannedAll(groups: seq<Group>, plans: seq<Plan>, planned: Planned)
    requires PlannedUpTo(groups, |groups|, plans, planned)
    ensures plans == PlansOf(groups)
  {
    assert forall i :: 0 <= i < |plans| ==> plans[i] == PlansOf(groups)[i];
  }

  lemma {:induction false} PlannedGrows(groups: seq<Group>, k: nat, plans: seq<Plan>, planned: Planned)
    requires k < |groups| && PlannedUpTo(groups, k, plans, planned) && Plannable(groups, k)
    requires groups[k].lengths != [] && groups[k].current !in planned && groups[k].legacy !in planned
    ensures Plannable(groups, k + 1)
    ensures var plan := PlanOf(groups[k]);
            PlannedUpTo(groups, k + 1, plans + [plan], planned[plan.current := plan][plan.legacy := plan])
    ensures planned == Table(groups, k) ==>
              var plan := PlanOf(groups[k]);
              Table(groups, k + 1) == planned[plan.current := plan][plan.legacy := plan]
  {
    forall i, j | 0 <= i < j < k + 1 ensures Apart(groups[i], groups[j]) {
      if j < k {
        assert Apart(groups[i], groups[j]);
      }
    }
    var plan := PlanOf(groups[k]);
    var more := plans + [plan];
    forall i | 0 <= i < k + 1 ensures more[i] == PlanOf(groups[i]) {
      if i < k {
        assert more[i] == plans[i];
      }
    }
  }

  /** The planning loop: it fails exactly when there is no group, an empty one, or a repeated fingerprint. */
  method BuildPlans(groups: seq<Group>) returns (valid: bool, plans: seq<Plan>, planned: Planned)
    ensures valid <==> groups != [] && Plannable(groups, |groups|)
    ensures valid ==> plans != [] && PlansAgree(plans, planned)
    ensures valid ==> plans == PlansOf(groups) && planned == Table(groups, |groups|)
  {
    plans, planned := [], map[];
    for k := 0 to |groups|
      invariant PlansAgree(plans, planned) && PlannedUpTo(groups, k, plans, planned)
      invariant Plannable(groups, k) && planned == Table(groups, k)
    {
      var group := groups[k];
      if group.lengths == [] {
        return false, plans, planned;
      }
      if group.current in planned || group.legacy in planned {
        PlanClash(groups, k, plans, planned, if group.current in planned then group.current else group.legacy);
        return false, plans, planned;
      }
      var plan := PlanOf(group);
      PlanAdded(plans, planned, plan);
      PlannedGrows(groups, k, plans, planned);
      plans := plans + [plan];
      planned := planned[plan.current := plan][plan.legacy := plan];
    }
    PlannedAll(groups, plans, planned);
    valid := plans != [];
  }

  lemma {:induction false} PlanAdded(plans: seq<Plan>, planned: Planned, plan: Plan)
    requires PlansAgree(plans, planned) && plan.pairs > 0 && plan.estimate > 0
    requires plan.current !in planned && plan.legacy !in planned
    ensures PlansAgree(plans + [plan], planned[plan.current := plan][plan.legacy := plan])
  {
    var more, table := plans + [plan], planned[plan.current := plan][plan.legacy := plan];
    forall i | 0 <= i < |more| ensures more[i].current in table && table[more[i].current] == more[i] {
      if i < |plans| {
        assert more[i] == plans[i];
        assert plans[i].current in planned;
      }
    }
    forall fp | fp in table ensures table[fp] in more && (fp == table[fp].current || fp == table[fp].legacy) {
      if fp != plan.current && fp != plan.legacy {
        assert planned[fp] in plans;
      } else {
        assert more[|plans|] == plan;
      }
    }
  }

  // ----- ledger records -----

  datatype Schema = LegacyBaseline | CurrentBaseline

  /** The response's own token count: absent, of a wrong type or negative, or a number. */
  datatype Reported = NotReported | InvalidCount | Count(tokens: nat)

  /** shapeValid: the fields are the expected ones with the expected types. */
  datatype Row = Row(schema: Schema, fingerprint: Fingerprint, query: string, labels: string, textLabels: bool,
                     pairs: int, charged: int, estimated: int, status: int, reported: Reported, scoresValid: bool,
                     shapeValid: bool)

  datatype Intent = Intent(fingerprint: Fingerprint, query: string, estimated: int, shapeValid: bool)

  predicate RowMatches(row: Row, planned: Planned) {
    && row.shapeValid && row.textLabels && row.fingerprint in planned
    && var expected := planned[row.fingerprint];
       && row.charged >= 0 && row.estimated > 0 && row.pairs > 0
       && row.fingerprint == (if row.schema.LegacyBaseline? then expected.legacy else expected.current)
       && row.query == expected.query && row.labels == expected.labels
       && row.pairs == expected.pairs && row.estimated == expected.estimate
       && 100 <= row.status <= 599
  }

  /** A row that says anything else of its group than the plan does is refused; so is a negative charge. */
  lemma {:induction false} ForeignRowRefused(row: Row, planned: Planned, plan: Plan)
    requires row.fingerprint in planned && planned[row.fingerprint] == plan
    ensures (row.query != plan.query || row.labels != plan.labels || row.pairs != plan.pairs
             || row.estimated != plan.estimate || row.charged < 0 || !row.textLabels || !row.shapeValid) ==>
              !RowMatches(row, planned)
    ensures row.fingerprint != (if row.schema.LegacyBaseline? then plan.legacy else plan.current) ==>
              !RowMatches(row, planned)
    ensures !(100 <= row.status <= 599) ==> !RowMatches(row, planned)
  {}

  predicate IntentMatches(intent: Intent, planned: Planned) {
    && intent.shapeValid && intent.fingerprint in planned
    && intent.query == planned[intent.fingerprint].query
    && intent.estimated == planned[intent.fingerprint].estimate
  }

  lemma {:induction false} ForeignIntentRefused(intent: Intent, planned: Planned, plan: Plan)
    requires intent.fingerprint in planned ==> planned[intent.fingerprint] == plan
    ensures (intent.fingerprint !in planned || intent.query != plan.query || intent.estimated != plan.estimate
             || !intent.shapeValid) ==> !IntentMatches(intent, planned)
  {}

  predicate FailedResponse(status: int, reported: Reported, scoresValid: bool) {
    status != 200 || reported.InvalidCount? || !scoresValid
  }

  predicate FailedRow(row: Row) {
    FailedResponse(row.status, row.reported, row.scoresValid)
  }

  predicate RowsConsistent(rows: seq<Row>, planned: Planned) {
    && (forall i :: 0 <= i < |rows| ==> RowMatches(rows[i], planned))
    && (forall i, j :: 0 <= i < j < |rows| ==>
          planned[rows[i].fingerprint].current != planned[rows[j].fingerprint].current)
  }

  predicate IntentsConsistent(intents: seq<Intent>, planned: Planned) {
    && (forall i :: 0 <= i < |intents| ==> IntentMatches(intents[i], planned))
    && (forall i, j :: 0 <= i < j < |intents| ==>
          planned[intents[i].fingerprint].current != planned[intents[j].fingerprint].current)
  }

  function Completed(rows: seq<Row>, planned: Planned): set<Fingerprint>
    requires forall i :: 0 <= i < |rows| ==> rows[i].fingerprint in planned
  {
    set i | 0 <= i < |rows| :: planned[rows[i].fingerprint].current
  }

  function Failures(rows: seq<Row>, planned: Planned): set<Fingerprint>
    requires forall i :: 0 <= i < |rows| ==> rows[i].fingerprint in planned
  {
    set i | 0 <= i < |rows| && FailedRow(rows[i]) :: planned[rows[i].fingerprint].current
  }

  function Intended(intents: seq<Intent>, planned: Planned): set<Fingerprint>
    requires forall i :: 0 <= i < |intents| ==> intents[i].fingerprint in planned
  {
    set i | 0 <= i < |intents| :: planned[intents[i].fingerprint].current
  }

  function Charged(rows: seq<Row>): int {
    if rows == [] then 0 else Charged(rows[..|rows| - 1]) + rows[|rows| - 1].charged
  }

  datatype ResumeState = ResumeState(completed: set<Fingerprint>, charged: int, failures: set<Fingerprint>)

  function StateOf(rows: seq<Row>, planned: Planned): ResumeState
    requires RowsConsistent(rows, planned)
  {
    ResumeState(Completed(rows, planned), Charged(rows), Failures(rows, planned))
  }

  /** What resuming demands of the two ledgers. */
  predicate Loadable(rows: File<Row>, intents: File<Intent>, planned: Planned) {
    && Records(rows).Some? && Records(intents).Some?
    && RowsConsistent(Records(rows).value, planned)
    && IntentsConsistent(Records(intents).value, planned)
    && Intended(Records(intents).value, planned) <= Completed(Records(rows).value, planned)
  }

  /** _load_resume_state: refused exactly when the ledgers are not loadable. */
  method LoadResumeState(rows: File<Row>, intents: File<Intent>, planned: Planned) returns (state: Option<ResumeState>)
    ensures state.Some? <==> Loadable(rows, intents, planned)
    ensures state.Some? ==> state.value == StateOf(Records(rows).value, planned)
  {
    var read := Records(rows);
    if read.None? {
      return None;
    }
    var lines := read.value;
    var completed: set<Fingerprint>, failures: set<Fingerprint>, charged := {}, {}, 0;
    for k := 0 to |lines|
      invariant RowsConsistent(lines[..k], planned)
      invariant ResumeState(completed, charged, failures) == StateOf(lines[..k], planned)
    {
      var row := lines[k];
      RowLoaded(lines, planned, k);
      if !RowMatches(row, planned) || planned[row.fingerprint].current in completed {
        return None;
      }
      completed := completed + {planned[row.fingerprint].current};
      if FailedRow(row) {
        failures := failures + {planned[row.fingerprint].current};
      }
      charged := charged + row.charged;
    }
    assert lines[..|lines|] == lines;
    var readIntents := Records(intents);
    if readIntents.None? {
      return None;
    }
    var wanted := readIntents.value;
    var intended: set<Fingerprint> := {};
    for k := 0 to |wanted|
      invariant IntentsConsistent(wanted[..k], planned)
      invariant intended == Intended(wanted[..k], planned)
    {
      var intent := wanted[k];
      IntentLoaded(wanted, planned, k);
      if !IntentMatches(intent, planned) || planned[intent.fingerprint].current in intended {
        return None;
      }
      intended := intended + {planned[intent.fingerprint].current};
    }
    assert wanted[..|wanted|] == wanted;
    if !(intended <= completed) {
      return None;
    }
    state := Some(ResumeState(completed, charged, failures));
  }

  /** One more row: consistent exactly when it matches and its request was not completed before. */
  lemma {:induction false} RowAdded(rows: seq<Row>, row: Row, planned: Planned)
    requires RowsConsistent(rows, planned)
    ensures RowsConsistent(rows + [row], planned)
            <==> RowMatches(row, planned) && planned[row.fingerprint].current !in Completed(rows, planned)
    ensures RowsConsistent(rows + [row], planned) ==>
              var before := StateOf(rows, planned);
              var fp := planned[row.fingerprint].current;
              StateOf(rows + [row], planned)
              == ResumeState(before.completed + {fp}, before.charged + row.charged,
                             if FailedRow(row) then before.failures + {fp} else before.failures)
  {
    var more := rows + [row];
    assert more[..|rows|] == rows && more[|rows|] == row;
    if RowMatches(row, planned) && planned[row.fingerprint].current !in Completed(rows, planned) {
      RowFits(rows, row, planned);
      SetsGrow(rows, row, planned);
    } else {
      RowClashes(rows, row, planned);
    }
  }

  lemma {:induction false} RowFits(rows: seq<Row>, row: Row, planned: Planned)
    requires RowsConsistent(rows, planned) && RowMatches(row, planned)
    requires planned[row.fingerprint].current !in Completed(rows, planned)
    ensures RowsConsistent(rows + [row], planned)
  {
    var more := rows + [row];
    forall i | 0 <= i < |more| ensures RowMatches(more[i], planned) {
      assert i < |rows| ==> more[i] == rows[i];
    }
    forall i, j | 0 <= i < j < |more|
      ensures planned[more[i].fingerprint].current != planned[more[j].fingerprint].current
    {
      assert more[i] == rows[i];
      if j < |rows| {
        assert more[j] == rows[j];
      } else {
        assert planned[rows[i].fingerprint].current in Completed(rows, planned);
      }
    }
  }

  lemma {:induction false} RowClashes(rows: seq<Row>, row: Row, planned: Planned)
    requires RowsConsistent(rows, planned)
    requires !RowMatches(row, planned) || planned[row.fingerprint].current in Completed(rows, planned)
    ensures !RowsConsistent(rows + [row], planned)
  {
    var more := rows + [row];
    assert more[|rows|] == row;
    if RowMatches(row, planned) {
      var i :| 0 <= i < |rows| && planned[rows[i].fingerprint].current == planned[row.fingerprint].current;
      assert more[i] == rows[i];
      assert planned[more[i].fingerprint].current == planned[more[|rows|].fingerprint].current;
    }
  }

  lemma {:induction false} SetsGrow(rows: seq<Row>, row: Row, planned: Planned)
    requires forall i :: 0 <= i < |rows| ==> rows[i].fingerprint in planned
    requires row.fingerprint in planned
    ensures forall i :: 0 <= i < |rows + [row]| ==> (rows + [row])[i].fingerprint in planned
    ensures var fp := planned[row.fingerprint].current;
            && Completed(rows + [row], planned) == Completed(rows, planned) + {fp}
            && Failures(rows + [row], planned) == Failures(rows, planned) + (if FailedRow(row) then {fp} else {})
  {
    var more, fp := rows + [row], planned[row.fingerprint].current;
    assert more[|rows|] == row;
    forall x ensures x in Completed(more, planned) <==> x in Completed(rows, planned) + {fp} {
      if x in Completed(rows, planned) {
        var i :| 0 <= i < |rows| && planned[rows[i].fingerprint].current == x;
        assert more[i] == rows[i];
      }
      if x in Completed(more, planned) {
        var i :| 0 <= i < |more| && planned[more[i].fingerprint].current == x;
        assert i < |rows| ==> more[i] == rows[i];
      }
    }
    forall x
      ensures x in Failures(more, planned) <==> x in Failures(rows, planned) + (if FailedRow(row) then {fp} else {})
    {
      if x in Failures(rows, planned) {
        var i :| 0 <= i < |rows| && FailedRow(rows[i]) && planned[rows[i].fingerprint].current == x;
        assert more[i] == rows[i];
      }
      if x in Failures(more, planned) {
        var i :| 0 <= i < |more| && FailedRow(more[i]) && planned[more[i].fingerprint].current == x;
        assert i < |rows| ==> more[i] == rows[i];
      }
    }
  }

  lemma {:induction false} RowLoaded(lines: seq<Row>, planned: Planned, k: nat)
    requires k < |lines| && RowsConsistent(lines[..k], planned)
    ensures RowsConsistent(lines[..k + 1], planned)
            <==> (&& RowMatches(lines[k], planned)
                  && planned[lines[k].fingerprint].current !in Completed(lines[..k], planned))
    ensures RowsConsistent(lines[..k + 1], planned) ==>
              var before := StateOf(lines[..k], planned);
              var fp := planned[lines[k].fingerprint].current;
              StateOf(lines[..k + 1], planned)
              == ResumeState(before.completed + {fp}, before.charged + lines[k].charged,
                             if FailedRow(lines[k]) then before.failures + {fp} else before.failures)
    ensures RowsConsistent(lines, planned) ==> RowsConsistent(lines[..k + 1], planned)
  {
    assert lines[..k + 1] == lines[..k] + [lines[k]];
    RowAdded(lines[..k], lines[k], planned);
  }

  lemma {:induction false} IntentAdded(intents: seq<Intent>, intent: Intent, planned: Planned)
    requires IntentsConsistent(intents, planned)
    ensures IntentsConsistent(intents + [intent], planned)
            <==> IntentMatches(intent, planned) && planned[intent.fingerprint].current !in Intended(intents, planned)
    ensures IntentsConsistent(intents + [intent], planned) ==>
              Intended(intents + [intent], planned)
                  == Intended(intents, planned) + {planned[intent.fingerprint].current}
  {
    var more := intents + [intent];
    assert more[|intents|] == intent;
    assert forall i :: 0 <= i < |intents| ==> more[i] == intents[i];
    if IntentMatches(intent, planned) {
      var fp := planned[intent.fingerprint].current;
      if fp in Intended(intents, planned) {
        var i :| 0 <= i < |intents| && planned[intents[i].fingerprint].current == fp;
        assert planned[more[i].fingerprint].current == planned[more[|intents|].fingerprint].current;
      } else {
        assert forall i :: 0 <= i < |intents| ==> planned[more[i].fingerprint].current != fp;
        assert IntentsConsistent(more, planned);
        forall x ensures x in Intended(more, planned) <==> x in Intended(intents, planned) + {fp} {
          if x in Intended(intents, planned) {
            var i :| 0 <= i < |intents| && planned[intents[i].fingerprint].current == x;
            assert more[i] == intents[i];
          }
          if x in Intended(more, planned) {
            var i :| 0 <= i < |more| && planned[more[i].fingerprint].current == x;
            assert i < |intents| ==> more[i] == intents[i];
          }
        }
      }
    } else {
      assert !IntentMatches(more[|intents|], planned);
    }
  }

  lemma {:induction false} IntentLoaded(lines: seq<Intent>, planned: Planned, k: nat)
    requires k < |lines| && IntentsConsistent(lines[..k], planned)
    ensures IntentsConsistent(lines[..k + 1], planned)
            <==> (&& IntentMatches(lines[k], planned)
                  && planned[lines[k].fingerprint].current !in Intended(lines[..k], planned))
    ensures IntentsConsistent(lines[..k + 1], planned) ==>
              Intended(lines[..k + 1], planned)
                  == Intended(lines[..k], planned) + {planned[lines[k].fingerprint].current}
    ensures IntentsConsistent(lines, planned) ==> IntentsConsistent(lines[..k + 1], planned)
  {
    assert lines[..k + 1] == lines[..k] + [lines[k]];
    IntentAdded(lines[..k], lines[k], planned);
  }

  lemma {:induction false} AppendedRecords<T>(file: File<T>, record: T)
    requires Appendable(file) && Records(file).Some?
    ensures Appendable(Appended(file, Whole(record)))
    ensures Records(Appended(file, Whole(record))) == Some(Records(file).value + [record])
  {
    var after := Appended(file, Whole(record));
    var before := if file.Missing? then [] else file.lines;
    assert after.lines == before + [Whole(record)];
    assert forall i :: 0 <= i < |before| ==> after.lines[i] == before[i] && before[i].Whole?;
    assert !HasTorn(after);
    assert Records(after).value == Records(file).value + [record];
  }

  // ----- cost -----

  function Cost(tokens: int, price: real): real {
    tokens as real / 1000000.0 * price
  }

  lemma {:induction false} CostAdds(a: int, b: int, price: real)
    ensures Cost(a + b, price) == Cost(a, price) + Cost(b, price)
  {
    assert (a + b) as real == a as real + b as real;
  }

  /** The estimates of all plans from k on that the ledger had not completed. */
  function Remaining(plans: seq<Plan>, k: nat, completed: set<Fingerprint>): (tokens: nat)
    requires k <= |plans|
    decreases |plans| - k
  {
    if k == |plans| then 0
    else (if plans[k].current in completed then 0 else plans[k].estimate) + Remaining(plans, k + 1, completed)
  }

  /** How many of the first k plans are skipped. */
  function Skipped(plans: seq<Plan>, k: nat, completed: set<Fingerprint>): nat
    requires k <= |plans|
  {
    if k == 0 then 0 else Skipped(plans, k - 1, completed) + (if plans[k - 1].current in completed then 1 else 0)
  }

  lemma {:induction false} SkippedStep(plans: seq<Plan>, k: nat, completed: set<Fingerprint>)
    requires k < |plans|
    ensures Skipped(plans, k + 1, completed)
            == Skipped(plans, k, completed) + (if plans[k].current in completed then 1 else 0)
  {}

  lemma {:induction false} SkippedCounts(plans: seq<Plan>, k: nat, completed: set<Fingerprint>)
    requires k <= |plans| && forall i, j :: 0 <= i < j < |plans| ==> plans[i].current != plans[j].current
    ensures Skipped(plans, k, completed) == |set i | 0 <= i < k && plans[i].current in completed :: plans[i].current|
  {
    var now := set i | 0 <= i < k && plans[i].current in completed :: plans[i].current;
    if k == 0 {
      assert now == {};
    } else {
      SkippedCounts(plans, k - 1, completed);
      var before := set i | 0 <= i < k - 1 && plans[i].current in completed :: plans[i].current;
      if plans[k - 1].current in completed {
        assert now == before + {plans[k - 1].current};
        assert plans[k - 1].current !in before;
      } else {
        assert now == before;
      }
    }
  }

  /** When everything completed is planned, exactly that many plans are skipped. */
  lemma {:induction false} AllSkippedArePlans(plans: seq<Plan>, planned: Planned, rows: seq<Row>)
    requires PlansAgree(plans, planned) && RowsConsistent(rows, planned)
    ensures Skipped(plans, |plans|, Completed(rows, planned)) == |Completed(rows, planned)|
  {
    var completed := Completed(rows, planned);
    SkippedCounts(plans, |plans|, completed);
    var hit := set i | 0 <= i < |plans| && plans[i].current in completed :: plans[i].current;
    forall fp | fp in completed ensures fp in hit {
      var i :| 0 <= i < |rows| && planned[rows[i].fingerprint].current == fp;
      assert planned[rows[i].fingerprint] in plans;
      var j :| 0 <= j < |plans| && plans[j] == planned[rows[i].fingerprint];
    }
    assert hit == completed;
  }

  // ----- at most once -----

  /** No resume can send this request again: its intent is on file, or the file is unreadable. */
  predicate Guarded(intents: File<Intent>, fp: Fingerprint) {
    || HasTorn(intents)
    || (intents.Present? && exists i :: 0 <= i < |intents.lines| && intents.lines[i].Whole?
                                        && intents.lines[i].value.fingerprint == fp)
  }

  lemma {:induction false} GuardStays(before: File<Intent>, line: Line<Intent>, after: File<Intent>, fp: Fingerprint)
    requires MayFollow(before, line, after) && Guarded(before, fp)
    ensures Guarded(after, fp)
  {
    var n := |before.lines|;
    if HasTorn(before) {
      var i :| 0 <= i < n && before.lines[i].Torn?;
      assert after.lines[i].Torn?;
    } else {
      var i :| 0 <= i < n && before.lines[i].Whole? && before.lines[i].value.fingerprint == fp;
      assert |after.lines| >= n;
      assert after.lines[i] == before.lines[i] || after.lines[n - 1].Torn?;
    }
  }

  lemma {:induction false} GuardSet(before: File<Intent>, plan: Plan)
    ensures Guarded(Appended(before, IntentLine(plan)), plan.current)
  {
    var after := Appended(before, IntentLine(plan));
    assert after.lines[|after.lines| - 1] == Torn || after.lines[|after.lines| - 1] == Whole(IntentFor(plan));
  }

  predicate Distinct(sent: seq<Fingerprint>) {
    forall i, j :: 0 <= i < j < |sent| ==> sent[i] != sent[j]
  }

  /** A request already sent is either completed or blocks the resume. */
  lemma {:induction false} SentIsCompleted(rows: File<Row>, intents: File<Intent>, plans: seq<Plan>, planned: Planned,
                                           k: nat)
    requires PlansAgree(plans, planned) && Loadable(rows, intents, planned) && k < |plans|
    requires Guarded(intents, plans[k].current)
    ensures plans[k].current in Completed(Records(rows).value, planned)
  {
    var fp := plans[k].current;
    var i :| 0 <= i < |intents.lines| && intents.lines[i].Whole? && intents.lines[i].value.fingerprint == fp;
    assert Records(intents).value[i].fingerprint == fp;
    assert planned[fp].current == fp;
    assert fp in Intended(Records(intents).value, planned);
  }

  // ----- a run -----

  /** kept: the text of the response fields that go into the row. */
  datatype Reply = Reply(status: int, reported: Reported, scoresValid: bool, kept: string)

  function ChargedTokens(reported: Reported, estimate: nat): nat {
    if reported.Count? && reported.tokens > 0 then reported.tokens else estimate
  }

  function RowFor(plan: Plan, reply: Reply): Row {
    Row(CurrentBaseline, plan.current, plan.query, plan.labels, plan.textLabels, plan.pairs,
        ChargedTokens(reply.reported, plan.estimate),
        plan.estimate, reply.status, reply.reported, reply.scoresValid, true)
  }

  function IntentFor(plan: Plan): Intent {
    Intent(plan.current, plan.query, plan.estimate, true)
  }

  /** What the ledger holds of an answer. */
  function RowLine(plan: Plan, reply: Reply): Line<Row> {
    LineOf(RowFor(plan, reply), OneLine(plan.query) && OneLine(plan.labels) && OneLine(reply.kept))
  }

  function IntentLine(plan: Plan): Line<Intent> {
    LineOf(IntentFor(plan), OneLine(plan.query))
  }

  /** Rows of this plan are written as one line and accepted back. */
  predicate PlanStorable(plan: Plan) {
    plan.textLabels && OneLine(plan.query) && OneLine(plan.labels)
  }

  /** One request on the wire: the total charged before it, and the reply once there is one. */
  datatype Send = Send(index: nat, before: int, reply: Option<Reply>)

  datatype Stop =
    | BadLimits | BadState | OverBudgetPlan | DryRun | NoKey
    | Killed | IntentUnwritten | NoReply | RowUnwritten | OverBudget | BadReply | Finished

  /** Stops before anything is written or sent. */
  predicate Refused(stop: Stop) {
    stop.BadLimits? || stop.BadState? || stop.OverBudgetPlan? || stop.DryRun? || stop.NoKey?
  }

  /** Stops after which every request sent has its durable row. */
  predicate Answered(stop: Stop) {
    stop.Finished? || stop.OverBudget? || stop.BadReply?
  }

  datatype Args = Args(valid: bool, budget: real, price: real, resume: bool, dryRun: bool, apiKey: bool)

  /** The largest number of tokens a budget pays for. */
  function Affordable(budget: real, price: real): int
    requires price > 0.0
  {
    (budget * 1000000.0 / price).Floor
  }

  function Capacity(args: Args): int
    requires args.price > 0.0
  {
    Affordable(args.budget, args.price)
  }

  predicate WithinBudget(args: Args, tokens: int) {
    args.price > 0.0 && tokens <= Capacity(args)
  }

  /** The tokens fit a capacity. */
  predicate Fits(cap: int, tokens: int) {
    tokens <= cap
  }

  /** Comparing tokens with the capacity is comparing their cost with the budget. */
  lemma {:induction false} BudgetIsCapacity(args: Args, tokens: int)
    requires args.price > 0.0
    ensures WithinBudget(args, tokens) <==> Cost(tokens, args.price) <= args.budget
  {
    var exact := args.budget * 1000000.0 / args.price;
    assert exact * args.price == args.budget * 1000000.0;
    assert Cost(tokens, args.price) * 1000000.0 == tokens as real * args.price;
    Ordered(tokens as real, exact, args.price);
    assert tokens <= exact.Floor <==> tokens as real <= exact;
  }

  lemma {:induction false} Ordered(a: real, b: real, factor: real)
    requires factor > 0.0
    ensures a <= b <==> a * factor <= b * factor
  {
    if a <= b {
      assert (b - a) * factor >= 0.0;
    } else {
      assert (a - b) * factor > 0.0;
    }
  }

  /** What one send adds to the total. */
  function ChargeOf(plans: seq<Plan>, send: Send): nat {
    if send.reply.Some? && send.index < |plans|
    then ChargedTokens(send.reply.value.reported, plans[send.index].estimate) else 0
  }

  /** What it was charged beyond its estimate. */
  function OverReport(plans: seq<Plan>, send: Send): nat {
    if send.index < |plans| then Max(0, ChargeOf(plans, send) - plans[send.index].estimate) else 0
  }

  /** Before this send, what was charged and all unfinished estimates fitted the budget. */
  predicate SendAllowed(cap: int, plans: seq<Plan>, completed: set<Fingerprint>, send: Send) {
    && send.index < |plans| && plans[send.index].current !in completed
    && Fits(cap, send.before + Remaining(plans, send.index, completed))
  }

  predicate SendsAllowed(cap: int, plans: seq<Plan>, completed: set<Fingerprint>, sends: seq<Send>) {
    forall i :: 0 <= i < |sends| ==> SendAllowed(cap, plans, completed, sends[i])
  }

  /** Sends follow the plan order, and each starts from the total the one before it left. */
  predicate SendsChain(plans: seq<Plan>, sends: seq<Send>, start: int, total: int) {
    if sends == [] then total == start else
      var n := |sends| - 1;
      && total == sends[n].before + ChargeOf(plans, sends[n])
      && (forall i :: 0 <= i < n ==> sends[i].reply.Some? && sends[i].index < sends[n].index)
      && SendsChain(plans, sends[..n], start, sends[n].before)
  }

  lemma {:induction false} OverrunBounded(cap: int, plans: seq<Plan>, completed: set<Fingerprint>, send: Send)
    requires SendAllowed(cap, plans, completed, send)
    ensures Fits(cap, send.before + ChargeOf(plans, send) - OverReport(plans, send))
  {
    var k := send.index;
    assert Remaining(plans, k, completed) == plans[k].estimate + Remaining(plans, k + 1, completed);
  }

  // ----- ledgers and live state -----

  /** The ledgers can be resumed and hold exactly the live state. */
  predicate InStep(rows: File<Row>, intents: File<Intent>, planned: Planned, live: ResumeState) {
    Loadable(rows, intents, planned) && StateOf(Records(rows).value, planned) == live
  }

  function Advance(live: ResumeState, plan: Plan, reply: Reply): ResumeState {
    ResumeState(live.completed + {plan.current}, live.charged + ChargedTokens(reply.reported, plan.estimate),
                if FailedResponse(reply.status, reply.reported, reply.scoresValid)
                then live.failures + {plan.current} else live.failures)
  }

  /** The answer is written as one line, with a status that is accepted back. */
  predicate AnswerReadable(reply: Reply) {
    100 <= reply.status <= 599 && OneLine(reply.kept)
  }

  lemma {:induction false} RowOfPlan(plans: seq<Plan>, planned: Planned, k: nat, reply: Reply)
    requires PlansAgree(plans, planned) && k < |plans|
    ensures RowMatches(RowFor(plans[k], reply), planned) <==> plans[k].textLabels && 100 <= reply.status <= 599
    ensures IntentMatches(IntentFor(plans[k]), planned)
    ensures planned[plans[k].current].current == plans[k].current
  {
  }

  lemma {:induction false} RowsInStep(rows: File<Row>, plans: seq<Plan>, planned: Planned, k: nat, reply: Reply)
    requires PlansAgree(plans, planned) && k < |plans| && PlanStorable(plans[k]) && AnswerReadable(reply)
    requires Records(rows).Some? && RowsConsistent(Records(rows).value, planned) && Appendable(rows)
    requires plans[k].current !in StateOf(Records(rows).value, planned).completed
    ensures var after := Records(Appended(rows, RowLine(plans[k], reply)));
            && after.Some? && RowsConsistent(after.value, planned)
            && StateOf(after.value, planned) == Advance(StateOf(Records(rows).value, planned), plans[k], reply)
  {
    RowOfPlan(plans, planned, k, reply);
    AppendedRecords(rows, RowFor(plans[k], reply));
    RowAdded(Records(rows).value, RowFor(plans[k], reply), planned);
  }

  lemma {:induction false} IntentsInStep(intents: File<Intent>, plans: seq<Plan>, planned: Planned, k: nat,
                                         completed: set<Fingerprint>)
    requires PlansAgree(plans, planned) && k < |plans| && PlanStorable(plans[k])
    requires Records(intents).Some? && IntentsConsistent(Records(intents).value, planned) && Appendable(intents)
    requires Intended(Records(intents).value, planned) <= completed && plans[k].current !in completed
    ensures var after := Records(Appended(intents, IntentLine(plans[k])));
            && after.Some? && IntentsConsistent(after.value, planned)
            && Intended(after.value, planned) <= completed + {plans[k].current}
  {
    var intent := IntentFor(plans[k]);
    assert IntentMatches(intent, planned) && planned[plans[k].current].current == plans[k].current;
    AppendedRecords(intents, intent);
    IntentAdded(Records(intents).value, intent, planned);
  }

  /** A durable intent and its durable row keep ledgers and live state in step. */
  lemma {:induction false} RowKeepsStep(rows: File<Row>, intents: File<Intent>, plans: seq<Plan>, planned: Planned,
                                        live: ResumeState, k: nat, reply: Reply)
    requires PlansAgree(plans, planned) && InStep(rows, intents, planned, live) && k < |plans|
    requires plans[k].current !in live.completed && PlanStorable(plans[k]) && AnswerReadable(reply)
    requires Appendable(rows) && Appendable(intents)
    ensures InStep(Appended(rows, RowLine(plans[k], reply)), Appended(intents, IntentLine(plans[k])), planned,
                   Advance(live, plans[k], reply))
  {
    RowsInStep(rows, plans, planned, k, reply);
    IntentsInStep(intents, plans, planned, k, live.completed);
  }

  /** The line is in the file, or the file is torn. */
  ghost predicate Holds<T>(file: File<T>, line: Line<T>) {
    file.Present? && (line in file.lines || HasTorn(file))
  }

  /** A line that is broken up, or a row whose status or labels are refused, keeps every later run from resuming. */
  lemma {:induction false} BadLineBlocksResume(rows: File<Row>, intents: File<Intent>, planned: Planned,
                                               line: Line<Row>)
    requires Holds(rows, line)
    requires line.Whole? ==> !(100 <= line.value.status <= 599) || !line.value.textLabels
    ensures !Loadable(rows, intents, planned)
  {
    if !HasTorn(rows) {
      var i :| 0 <= i < |rows.lines| && rows.lines[i] == line;
      assert Records(rows).value[i] == line.value;
      assert !RowMatches(Records(rows).value[i], planned);
    }
  }

  lemma {:induction false} TornStays<T>(file: File<T>, line: Line<T>)
    requires HasTorn(file) || !Appendable(file) || line.Torn?
    ensures HasTorn(Appended(file, line))
  {
    var after := Appended(file, line);
    if HasTorn(file) && Appendable(file) {
      var i :| 0 <= i < |file.lines| && file.lines[i].Torn?;
      assert after.lines[i].Torn?;
    } else {
      assert after.lines[|after.lines| - 1].Torn?;
    }
  }

  lemma {:induction false} LineStays<T>(file: File<T>, line: Line<T>, x: Line<T>)
    requires Holds(file, x) || x == line
    ensures Holds(Appended(file, line), x)
  {
    var after := Appended(file, line);
    if file.Present? && (HasTorn(file) || !Appendable(file)) {
      TornStays(file, line);
    } else if x == line {
      assert after.lines[|after.lines| - 1] == x;
    } else {
      var i :| 0 <= i < |file.lines| && file.lines[i] == x;
      assert after.lines[i] == x;
    }
  }

  /** An appended row whose status no resume accepts makes the ledger unreadable for every later run. */
  lemma {:induction false} StatusBlocksResume(rows: File<Row>, intents: File<Intent>, planned: Planned, row: Row)
    requires !(100 <= row.status <= 599)
    ensures !Loadable(Appended(rows, Whole(row)), intents, planned)
  {
    LineStays(rows, Whole(row), Whole(row));
    BadLineBlocksResume(Appended(rows, Whole(row)), intents, planned, Whole(row));
  }

  /** A row file without its last newline loses a record on the next append, and cannot be resumed. */
  lemma {:induction false} UnterminatedAppendBlocks(rows: File<Row>, line: Line<Row>, intents: File<Intent>,
                                                    planned: Planned)
    requires rows.Present? && !rows.terminated && rows.lines != []
    ensures !Loadable(Appended(rows, line), intents, planned)
  {
    TornStays(rows, line);
  }

  /** The ledgers and the live state after a list of answered sends. */
  function RowsAfter(rows: File<Row>, plans: seq<Plan>, sends: seq<Send>): File<Row> {
    if sends == [] then rows else
      var last := sends[|sends| - 1];
      var before := RowsAfter(rows, plans, sends[..|sends| - 1]);
      if last.reply.Some? && last.index < |plans|
      then Appended(before, RowLine(plans[last.index], last.reply.value)) else before
  }

  function IntentsAfter(intents: File<Intent>, plans: seq<Plan>, sends: seq<Send>): File<Intent> {
    if sends == [] then intents else
      var last := sends[|sends| - 1];
      var before := IntentsAfter(intents, plans, sends[..|sends| - 1]);
      if last.index < |plans| then Appended(before, IntentLine(plans[last.index])) else before
  }

  function LiveAfter(resume: ResumeState, plans: seq<Plan>, sends: seq<Send>): ResumeState {
    if sends == [] then resume else
      var last := sends[|sends| - 1];
      var before := LiveAfter(resume, plans, sends[..|sends| - 1]);
      if last.reply.Some? && last.index < |plans| then Advance(before, plans[last.index], last.reply.value) else before
  }

  predicate AllReadable(sends: seq<Send>) {
    forall i :: 0 <= i < |sends| ==> sends[i].reply.Some? && AnswerReadable(sends[i].reply.value)
  }

  /** Sends of distinct planned requests that were not completed before. */
  predicate FreshSends(plans: seq<Plan>, resume: ResumeState, sends: seq<Send>) {
    && (forall i :: 0 <= i < |sends| ==> sends[i].index < |plans| && plans[sends[i].index].current !in resume.completed)
    && (forall i, j :: 0 <= i < j < |sends| ==> sends[i].index < sends[j].index)
  }

  lemma {:induction false} NotLive(resume: ResumeState, plans: seq<Plan>, sends: seq<Send>, fp: Fingerprint)
    requires fp !in resume.completed
    requires forall i :: 0 <= i < |sends| && sends[i].index < |plans| ==> plans[sends[i].index].current != fp
    ensures fp !in LiveAfter(resume, plans, sends).completed
    decreases |sends|
  {
    if sends != [] {
      var most := sends[..|sends| - 1];
      assert forall i :: 0 <= i < |most| ==> most[i] == sends[i];
      NotLive(resume, plans, most, fp);
    }
  }

  predicate PlansStorable(plans: seq<Plan>, sends: seq<Send>) {
    forall i :: 0 <= i < |sends| && sends[i].index < |plans| ==> PlanStorable(plans[sends[i].index])
  }

  lemma {:induction false} SendsKeepStep(rows: File<Row>, intents: File<Intent>, plans: seq<Plan>, planned: Planned,
                                         resume: ResumeState, sends: seq<Send>)
    requires PlansAgree(plans, planned) && InStep(rows, intents, planned, resume)
    requires Appendable(rows) && Appendable(intents) && PlansStorable(plans, sends)
    requires FreshSends(plans, resume, sends) && AllReadable(sends)
    ensures InStep(RowsAfter(rows, plans, sends), IntentsAfter(intents, plans, sends), planned,
                   LiveAfter(resume, plans, sends))
    ensures Appendable(RowsAfter(rows, plans, sends)) && Appendable(IntentsAfter(intents, plans, sends))
    decreases |sends|
  {
    if sends != [] {
      var most, last := sends[..|sends| - 1], sends[|sends| - 1];
      assert forall i :: 0 <= i < |most| ==> most[i] == sends[i];
      SendsKeepStep(rows, intents, plans, planned, resume, most);
      var fp := plans[last.index].current;
      forall i | 0 <= i < |most| ensures plans[most[i].index].current != fp {
        assert sends[i].index < sends[|sends| - 1].index;
      }
      NotLive(resume, plans, most, fp);
      RowKeepsStep(RowsAfter(rows, plans, most), IntentsAfter(intents, plans, most), plans, planned,
                   LiveAfter(resume, plans, most), last.index, last.reply.value);
    }
  }

  /** Every answered send left its line, unless a line was torn. */
  lemma {:induction false} LineIsLedgered(rows: File<Row>, plans: seq<Plan>, sends: seq<Send>, i: nat)
    requires i < |sends| && sends[i].index < |plans| && sends[i].reply.Some?
    ensures Holds(RowsAfter(rows, plans, sends), RowLine(plans[sends[i].index], sends[i].reply.value))
    decreases |sends|
  {
    var most, last := sends[..|sends| - 1], sends[|sends| - 1];
    var line := RowLine(plans[sends[i].index], sends[i].reply.value);
    if i < |most| {
      LineIsLedgered(rows, plans, most, i);
    }
    if last.index < |plans| && last.reply.Some? {
      LineStays(RowsAfter(rows, plans, most), RowLine(plans[last.index], last.reply.value), line);
    }
  }

  /** The first append to a file without its last newline tears a line for good. */
  lemma {:induction false} UncleanRowsTorn(rows: File<Row>, plans: seq<Plan>, sends: seq<Send>)
    requires HasTorn(rows) || (!Appendable(rows) && sends != [])
    requires forall i :: 0 <= i < |sends| ==> sends[i].index < |plans| && sends[i].reply.Some?
    ensures HasTorn(RowsAfter(rows, plans, sends))
    decreases |sends|
  {
    if sends != [] {
      var most, last := sends[..|sends| - 1], sends[|sends| - 1];
      if HasTorn(rows) || most != [] {
        UncleanRowsTorn(rows, plans, most);
      }
      TornStays(RowsAfter(rows, plans, most), RowLine(plans[last.index], last.reply.value));
    }
  }

  lemma {:induction false} UncleanIntentsTorn(intents: File<Intent>, plans: seq<Plan>, sends: seq<Send>)
    requires HasTorn(intents) || (!Appendable(intents) && sends != [])
    requires forall i :: 0 <= i < |sends| ==> sends[i].index < |plans|
    ensures HasTorn(IntentsAfter(intents, plans, sends))
    decreases |sends|
  {
    if sends != [] {
      var most, last := sends[..|sends| - 1], sends[|sends| - 1];
      if HasTorn(intents) || most != [] {
        UncleanIntentsTorn(intents, plans, most);
      }
      TornStays(IntentsAfter(intents, plans, most), IntentLine(plans[last.index]));
    }
  }

  // ----- the running totals of one run -----

  datatype Tally = Tally(total: int, sends: seq<Send>)

  /** Every plan before k is completed, by the ledger or by a send; the others are untouched. */
  predicate Reached(plans: seq<Plan>, resume: ResumeState, sends: seq<Send>, k: nat) {
    && k <= |plans|
    && (forall i :: 0 <= i < |sends| ==> sends[i].index < k && sends[i].reply.Some?)
    && (forall j :: 0 <= j < k ==> plans[j].current in LiveAfter(resume, plans, sends).completed)
  }

  predicate GoodReplies(sends: seq<Send>) {
    forall i :: 0 <= i < |sends| ==> sends[i].reply.Some? && GoodReply(sends[i].reply.value)
  }

  predicate GoodReply(reply: Reply) {
    !FailedResponse(reply.status, reply.reported, reply.scoresValid)
  }

  /** Before plan k: everything so far was allowed and answered well, and the rest still fits the budget. */
  predicate Sound(cap: int, plans: seq<Plan>, resume: ResumeState, t: Tally, k: nat) {
    && Reached(plans, resume, t.sends, k)
    && Fits(cap, t.total + Remaining(plans, k, resume.completed))
    && SendsAllowed(cap, plans, resume.completed, t.sends)
    && SendsChain(plans, t.sends, resume.charged, t.total)
    && GoodReplies(t.sends)
  }

  /** Every send was allowed, and only the last response can have exceeded the budget. */
  predicate Bounded(cap: int, plans: seq<Plan>, resume: ResumeState, t: Tally) {
    match t
    case Tally(total, sends) =>
      && SendsAllowed(cap, plans, resume.completed, sends) && SendsChain(plans, sends, resume.charged, total)
      && (sends == [] ==> Fits(cap, total))
      && (sends != [] ==> GoodReplies(sends[..|sends| - 1]))
      && (sends != [] ==> Fits(cap, total - OverReport(plans, sends[|sends| - 1])))
  }

  /** The last request was answered. */
  predicate LastAnswered(t: Tally) {
    t.sends != [] && t.sends[|t.sends| - 1].reply.Some?
  }

  /** After a run: the bounds, and what the way it stopped says about its last answer. */
  predicate Ended(cap: int, plans: seq<Plan>, resume: ResumeState, t: Tally, stop: Stop) {
    match stop
    case Finished => Bounded(cap, plans, resume, t) && Sound(cap, plans, resume, t, |plans|)
    case BadReply =>
      Bounded(cap, plans, resume, t) && LastAnswered(t) && !GoodReply(t.sends[|t.sends| - 1].reply.value)
    case OverBudget =>
      && Bounded(cap, plans, resume, t) && LastAnswered(t)
      && var k := t.sends[|t.sends| - 1].index;
         k < |plans| && !Fits(cap, t.total + Remaining(plans, k + 1, resume.completed))
    case _ => Bounded(cap, plans, resume, t)
  }

  lemma {:induction false} SoundMayStop(cap: int, plans: seq<Plan>, resume: ResumeState, t: Tally, k: nat, stop: Stop)
    requires Sound(cap, plans, resume, t, k)
    requires stop.Killed? || stop.IntentUnwritten? || (stop.Finished? && k == |plans|)
    ensures Ended(cap, plans, resume, t, stop)
  {
  }

  lemma {:induction false} SoundSkips(cap: int, plans: seq<Plan>, resume: ResumeState, t: Tally, k: nat)
    requires Sound(cap, plans, resume, t, k) && k < |plans| && plans[k].current in resume.completed
    ensures Sound(cap, plans, resume, t, k + 1)
  {
    LiveKeeps(resume, plans, t.sends);
  }

  /** The totals after one more send. */
  function Settle(plans: seq<Plan>, t: Tally, k: nat, reply: Option<Reply>): Tally {
    var send := Send(k, t.total, reply);
    Tally(t.total + ChargeOf(plans, send), t.sends + [send])
  }

  lemma {:induction false} SendMayStop(cap: int, plans: seq<Plan>, resume: ResumeState, t: Tally, k: nat,
                                       reply: Option<Reply>, stop: Stop)
    requires Sound(cap, plans, resume, t, k)
    requires k < |plans| && plans[k].current !in resume.completed
    requires stop.Killed? || stop.NoReply? || stop.RowUnwritten?
             || (stop.BadReply? && reply.Some? && !GoodReply(reply.value))
             || (stop.OverBudget? && reply.Some?
                 && !Fits(cap, Settle(plans, t, k, reply).total + Remaining(plans, k + 1, resume.completed)))
    ensures Ended(cap, plans, resume, Settle(plans, t, k, reply), stop)
  {
    var u := Settle(plans, t, k, reply);
    assert Bounded(cap, plans, resume, u) by {
      SendBounded(cap, plans, resume, t, k, reply);
    }
    assert u.sends[|u.sends| - 1] == Send(k, t.total, reply);
  }

  lemma {:induction false} SendBounded(cap: int, plans: seq<Plan>, resume: ResumeState, t: Tally, k: nat,
                                       reply: Option<Reply>)
    requires k < |plans| && plans[k].current !in resume.completed && GoodReplies(t.sends)
    requires Fits(cap, t.total + Remaining(plans, k, resume.completed))
    requires SendsAllowed(cap, plans, resume.completed, t.sends) && SendsChain(plans, t.sends, resume.charged, t.total)
    requires forall i :: 0 <= i < |t.sends| ==> t.sends[i].index < k && t.sends[i].reply.Some?
    ensures Bounded(cap, plans, resume, Settle(plans, t, k, reply))
  {
    SendsGrow(cap, plans, resume, t, k, reply);
    assert Settle(plans, t, k, reply).sends[..|t.sends|] == t.sends;
    ChainBounded(cap, plans, resume, Settle(plans, t, k, reply));
  }

  /** Allowed sends in a chain, all but the last answered well, are bounded. */
  lemma {:induction false} ChainBounded(cap: int, plans: seq<Plan>, resume: ResumeState, t: Tally)
    requires t.sends != [] && GoodReplies(t.sends[..|t.sends| - 1])
    requires SendsAllowed(cap, plans, resume.completed, t.sends) && SendsChain(plans, t.sends, resume.charged, t.total)
    ensures Bounded(cap, plans, resume, t)
  {
    OverrunBounded(cap, plans, resume.completed, t.sends[|t.sends| - 1]);
  }

  lemma {:induction false} SendMayContinue(cap: int, plans: seq<Plan>, resume: ResumeState, t: Tally, k: nat,
                                           reply: Reply)
    requires Sound(cap, plans, resume, t, k)
    requires k < |plans| && plans[k].current !in resume.completed && GoodReply(reply)
    requires Fits(cap, Settle(plans, t, k, Some(reply)).total + Remaining(plans, k + 1, resume.completed))
    ensures Sound(cap, plans, resume, Settle(plans, t, k, Some(reply)), k + 1)
  {
    assert Reached(plans, resume, Settle(plans, t, k, Some(reply)).sends, k + 1) by {
      ReachedGrows(plans, resume, t, k, reply);
    }
    SendsGrow(cap, plans, resume, t, k, Some(reply));
    GoodGrows(plans, t, k, reply);
  }

  /** One more answered plan is reached. */
  lemma {:induction false} ReachedGrows(plans: seq<Plan>, resume: ResumeState, t: Tally, k: nat, reply: Reply)
    requires Reached(plans, resume, t.sends, k) && k < |plans|
    ensures Reached(plans, resume, Settle(plans, t, k, Some(reply)).sends, k + 1)
  {
    var more := Settle(plans, t, k, Some(reply)).sends;
    assert more[..|more| - 1] == t.sends;
    forall i | 0 <= i < |more| ensures more[i].index < k + 1 && more[i].reply.Some? {
      if i < |t.sends| {
        assert more[i] == t.sends[i];
      }
    }
    assert LiveAfter(resume, plans, more) == Advance(LiveAfter(resume, plans, t.sends), plans[k], reply);
  }

  /** One more send, allowed as the budget stands, extends the chain of sends. */
  lemma {:induction false} SendsGrow(cap: int, plans: seq<Plan>, resume: ResumeState, t: Tally, k: nat,
                                     reply: Option<Reply>)
    requires k < |plans| && plans[k].current !in resume.completed
    requires Fits(cap, t.total + Remaining(plans, k, resume.completed))
    requires SendsAllowed(cap, plans, resume.completed, t.sends) && SendsChain(plans, t.sends, resume.charged, t.total)
    requires forall i :: 0 <= i < |t.sends| ==> t.sends[i].index < k && t.sends[i].reply.Some?
    ensures SendsAllowed(cap, plans, resume.completed, Settle(plans, t, k, reply).sends)
    ensures SendsChain(plans, Settle(plans, t, k, reply).sends, resume.charged, Settle(plans, t, k, reply).total)
  {
    var u, send := Settle(plans, t, k, reply), Send(k, t.total, reply);
    assert u.sends[..|u.sends| - 1] == t.sends && u.sends[|u.sends| - 1] == send;
    forall i | 0 <= i < |u.sends| ensures SendAllowed(cap, plans, resume.completed, u.sends[i]) {
      if i < |t.sends| {
        assert u.sends[i] == t.sends[i];
      }
    }
  }

  lemma {:induction false} GoodGrows(plans: seq<Plan>, t: Tally, k: nat, reply: Reply)
    requires GoodReplies(t.sends) && GoodReply(reply)
    ensures GoodReplies(Settle(plans, t, k, Some(reply)).sends)
  {
    var more := Settle(plans, t, k, Some(reply)).sends;
    forall i | 0 <= i < |more| ensures more[i].reply.Some? && GoodReply(more[i].reply.value) {
      if i < |t.sends| {
        assert more[i] == t.sends[i];
      }
    }
  }

  /** How far one request got. */
  datatype Effect =
    | Unsent(stop: Stop)
    | Unrecorded(answer: Option<Reply>, stop: Stop)
    | Recorded(reply: Reply)

  /** The totals after one request. */
  function TallyAfter(plans: seq<Plan>, t: Tally, k: nat, effect: Effect): Tally {
    match effect
    case Unsent(_) => t
    case Unrecorded(answer, _) => Settle(plans, t, k, answer)
    case Recorded(reply) => Settle(plans, t, k, Some(reply))
  }

  /** Whether the loop goes on after one request, and why not; u holds the totals after it. */
  function Verdict(cap: int, plans: seq<Plan>, resume: ResumeState, k: nat, u: Tally, effect: Effect): Option<Stop>
    requires k < |plans|
  {
    match effect
    case Unsent(stop) => Some(stop)
    case Unrecorded(_, stop) => Some(stop)
    case Recorded(reply) =>
      if !Fits(cap, u.total + Remaining(plans, k + 1, resume.completed)) then Some(OverBudget)
      else if FailedResponse(reply.status, reply.reported, reply.scoresValid) then Some(BadReply)
      else None
  }

  predicate EffectPossible(effect: Effect) {
    match effect
    case Unsent(stop) => stop.Killed? || stop.IntentUnwritten?
    case Unrecorded(_, stop) => stop.Killed? || stop.NoReply? || stop.RowUnwritten?
    case Recorded(_) => true
  }

  /** What one request leaves in the two files: the row is only ever begun after its whole intent. */
  predicate Left(plan: Plan, effect: Effect, rows0: File<Row>, intents0: File<Intent>, rows: File<Row>,
                 intents: File<Intent>) {
    match effect
    case Unsent(_) => rows == rows0 && MayFollow(intents0, IntentLine(plan), intents)
    case Unrecorded(answer, _) =>
      && intents == Appended(intents0, IntentLine(plan))
      && (if answer.None? then rows == rows0 else MayFollow(rows0, RowLine(plan, answer.value), rows))
    case Recorded(reply) =>
      rows == Appended(rows0, RowLine(plan, reply)) && intents == Appended(intents0, IntentLine(plan))
  }

  /** If the ledgers can be resumed at all, their rows add up to the total. */
  predicate Accounts(rows: File<Row>, intents: File<Intent>, planned: Planned, total: int) {
    Loadable(rows, intents, planned) ==> Charged(Records(rows).value) == total
  }

  lemma {:induction false} Unappended<T>(file: File<T>, line: Line<T>)
    requires Records(Appended(file, line)).Some?
    ensures line.Whole? && Records(file).Some?
    ensures Records(Appended(file, line)).value == Records(file).value + [line.value]
  {
    if HasTorn(file) || !Appendable(file) || line.Torn? {
      TornStays(file, line);
    } else {
      AppendedRecords(file, line.value);
    }
  }

  /** As long as no row is torn, the rows add up to the total and complete nothing but what was sent. */
  lemma {:induction false} RowsAddUp(rows0: File<Row>, plans: seq<Plan>, planned: Planned, resume: ResumeState,
                                     sends: seq<Send>, total: int)
    requires Resumed(rows0, plans, planned, resume)
    requires SendsChain(plans, sends, resume.charged, total)
    requires forall i :: 0 <= i < |sends| ==> sends[i].index < |plans| && sends[i].reply.Some?
    requires Records(RowsAfter(rows0, plans, sends)).Some?
    ensures var all := Records(RowsAfter(rows0, plans, sends)).value;
            && Charged(all) == total
            && (forall i :: 0 <= i < |all| ==> all[i].fingerprint in planned)
            && Completed(all, planned) == LiveAfter(resume, plans, sends).completed
    decreases |sends|
  {
    if sends != [] {
      var most, last := sends[..|sends| - 1], sends[|sends| - 1];
      assert forall i :: 0 <= i < |most| ==> most[i] == sends[i];
      var before, row := RowsAfter(rows0, plans, most), RowFor(plans[last.index], last.reply.value);
      assert RowsAfter(rows0, plans, sends) == Appended(before, RowLine(plans[last.index], last.reply.value));
      Unappended(before, RowLine(plans[last.index], last.reply.value));
      RowsAddUp(rows0, plans, planned, resume, most, last.before);
      OneMoreRow(Records(before).value, row, planned);
      LiveSnoc(resume, plans, sends);
      assert planned[row.fingerprint].current == plans[last.index].current;
    }
  }

  lemma {:induction false} LiveSnoc(resume: ResumeState, plans: seq<Plan>, sends: seq<Send>)
    requires sends != [] && sends[|sends| - 1].index < |plans| && sends[|sends| - 1].reply.Some?
    ensures LiveAfter(resume, plans, sends).completed
            == LiveAfter(resume, plans, sends[..|sends| - 1]).completed + {plans[sends[|sends| - 1].index].current}
  {}

  lemma {:induction false} OneMoreRow(rows: seq<Row>, row: Row, planned: Planned)
    requires (forall i :: 0 <= i < |rows| ==> rows[i].fingerprint in planned) && row.fingerprint in planned
    ensures forall i :: 0 <= i < |rows + [row]| ==> (rows + [row])[i].fingerprint in planned
    ensures Completed(rows + [row], planned) == Completed(rows, planned) + {planned[row.fingerprint].current}
    ensures Charged(rows + [row]) == Charged(rows) + row.charged
  {
    var all := rows + [row];
    assert all[..|rows|] == rows && all[|rows|] == row;
    forall fp
      ensures fp in Completed(all, planned) <==> fp in Completed(rows, planned) + {planned[row.fingerprint].current}
    {
      if fp in Completed(rows, planned) {
        var i :| 0 <= i < |rows| && planned[rows[i].fingerprint].current == fp;
        assert all[i] == rows[i];
      }
      if fp in Completed(all, planned) {
        var i :| 0 <= i < |all| && planned[all[i].fingerprint].current == fp;
        assert i < |rows| ==> all[i] == rows[i];
      }
    }
  }

  /** An intent on file without its row keeps the ledgers from being resumed. */
  lemma {:induction false} UnresolvedIntent(rows: File<Row>, intents0: File<Intent>, plans: seq<Plan>,
                                            planned: Planned, k: nat)
    requires PlansAgree(plans, planned) && k < |plans| && Records(rows).Some?
    requires forall i :: 0 <= i < |Records(rows).value| ==> Records(rows).value[i].fingerprint in planned
    requires plans[k].current !in Completed(Records(rows).value, planned)
    ensures !Loadable(rows, Appended(intents0, IntentLine(plans[k])), planned)
  {
    var intent := IntentFor(plans[k]);
    var intents := Appended(intents0, IntentLine(plans[k]));
    if Records(intents).Some? && IntentsConsistent(Records(intents).value, planned) {
      Unappended(intents0, IntentLine(plans[k]));
      var all := Records(intents).value;
      assert all[|all| - 1] == intent;
      assert planned[intent.fingerprint].current == plans[k].current;
      assert plans[k].current in Intended(all, planned);
    }
  }

  lemma {:induction false} CreatedRecords<T>(file: File<T>)
    ensures Records(Created(file)) == Records(file)
  {
    if file.Missing? {
      assert Records(Created(file)).value == [];
    }
  }

  /** A fragment of a row is torn, or is the whole row. */
  lemma {:induction false} FragmentRecords<T>(file: File<T>, line: Line<T>, allButNewline: bool)
    requires Records(Fragment(file, line, allButNewline)).Some?
    ensures line.Whole? && Records(file).Some?
    ensures Records(Fragment(file, line, allButNewline)).value == Records(file).value + [line.value]
  {
    var after := Fragment(file, line, allButNewline);
    assert after.lines[|after.lines| - 1].Whole?;
    var before := if file.Missing? then [] else file.lines;
    assert after.lines == before + [line];
    forall i | 0 <= i < |before| ensures before[i].Whole? {
      assert after.lines[i] == before[i];
    }
    assert Records(after).value == Records(file).value + [line.value];
  }

  /** The run started from these rows, with what they hold for these plans. */
  predicate Resumed(rows0: File<Row>, plans: seq<Plan>, planned: Planned, resume: ResumeState) {
    && PlansAgree(plans, planned) && Records(rows0).Some? && RowsConsistent(Records(rows0).value, planned)
    && resume == StateOf(Records(rows0).value, planned)
  }

  /** The state of the ledgers within a run, before plan k. */
  predicate Underway(rows0: File<Row>, rows: File<Row>, plans: seq<Plan>, planned: Planned, resume: ResumeState,
                     t: Tally, k: nat) {
    && Resumed(rows0, plans, planned, resume)
    && rows == RowsAfter(rows0, plans, t.sends) && SendsChain(plans, t.sends, resume.charged, t.total)
    && k <= |plans| && (forall i :: 0 <= i < |t.sends| ==> t.sends[i].index < k && t.sends[i].reply.Some?)
  }

  /** The answer came and its row did not: unless the row is there after all, no resume is possible. */
  lemma {:induction false} AnswerAccounts(rows0: File<Row>, before: File<Row>, intents0: File<Intent>, rows: File<Row>,
                                          plans: seq<Plan>, planned: Planned, resume: ResumeState, t: Tally,
                                          k: nat, reply: Reply)
    requires Underway(rows0, before, plans, planned, resume, t, k) && k < |plans|
             && plans[k].current !in resume.completed
    requires MayFollow(before, RowLine(plans[k], reply), rows)
    ensures Accounts(rows, Appended(intents0, IntentLine(plans[k])), planned,
                     t.total + ChargedTokens(reply.reported, plans[k].estimate))
  {
    var row, line := RowFor(plans[k], reply), RowLine(plans[k], reply);
    if Records(rows).Some? {
      if rows == before || rows == Created(before) {
        CreatedRecords(before);
        RowsAddUp(rows0, plans, planned, resume, t.sends, t.total);
        NotLive(resume, plans, t.sends, plans[k].current);
        UnresolvedIntent(rows, intents0, plans, planned, k);
      } else {
        if rows == Appended(before, line) {
          Unappended(before, line);
        } else {
          FragmentRecords(before, line, rows == Fragment(before, line, true));
        }
        RowsAddUp(rows0, plans, planned, resume, t.sends, t.total);
        OneMoreRow(Records(before).value, row, planned);
      }
    }
  }

  lemma {:induction false} EffectAccounts(rows0: File<Row>, before: File<Row>, intents0: File<Intent>, rows: File<Row>,
                                          intents: File<Intent>, plans: seq<Plan>, planned: Planned,
                                          resume: ResumeState, t: Tally, k: nat, effect: Effect)
    requires Underway(rows0, before, plans, planned, resume, t, k) && k < |plans|
             && plans[k].current !in resume.completed
    requires Left(plans[k], effect, before, intents0, rows, intents)
    ensures Accounts(rows, intents, planned, TallyAfter(plans, t, k, effect).total)
  {
    match effect
    case Unsent(_) =>
      if Records(rows).Some? {
        RowsAddUp(rows0, plans, planned, resume, t.sends, t.total);
      }
    case Unrecorded(None, _) =>
      if Records(rows).Some? {
        RowsAddUp(rows0, plans, planned, resume, t.sends, t.total);
      }
    case Unrecorded(Some(reply), _) => AnswerAccounts(rows0, before, intents0, rows, plans, planned, resume, t, k,
                                                      reply);
    case Recorded(reply) => AnswerAccounts(rows0, before, intents0, rows, plans, planned, resume, t, k, reply);
  }

  /** Where the loop stands: still going before plan k, or ended. */
  predicate Standing(cap: int, plans: seq<Plan>, resume: ResumeState, t: Tally, k: nat, stop: Option<Stop>) {
    match stop
    case None => Sound(cap, plans, resume, t, k)
    case Some(reason) => Ended(cap, plans, resume, t, reason) && !reason.Finished? && !Refused(reason)
  }

  /** An answer that counts. */
  predicate ValidReply(reply: Reply) {
    reply.status == 200 && (reply.reported.NotReported? || reply.reported.Count?) && reply.scoresValid
  }

  /**
   What is known of the answers when the loop goes on or stops: all before the last one count, the last
   one counts when the loop goes on or finishes, and it does not when it is what stopped the run.
   */
  predicate Judged(sends: seq<Send>, stop: Option<Stop>) {
    match stop
    case None => AllValid(sends)
    case Some(Finished) => AllValid(sends)
    case Some(BadReply) =>
      && sends != [] && AllValid(sends[..|sends| - 1])
      && sends[|sends| - 1].reply.Some? && !ValidReply(sends[|sends| - 1].reply.value)
    case Some(OverBudget) =>
      sends != [] && AllValid(sends[..|sends| - 1]) && sends[|sends| - 1].reply.Some?
    case Some(_) => sends != [] ==> AllValid(sends[..|sends| - 1])
  }

  predicate AllValid(sends: seq<Send>) {
    forall i :: 0 <= i < |sends| ==> sends[i].reply.Some? && ValidReply(sends[i].reply.value)
  }

  /** One more answered send of plan k: charged as the provider reports, or as estimated if it reports nothing. */
  predicate OneMore(plans: seq<Plan>, k: nat, t: Tally, u: Tally)
    requires k < |plans|
  {
    && |u.sends| == |t.sends| + 1 && u.sends[..|t.sends|] == t.sends
    && var send := u.sends[|t.sends|];
       && send.index == k && send.before == t.total && send.reply.Some?
       && (match send.reply.value.reported
           case Count(tokens) => u.total == t.total + (if tokens > 0 then tokens else plans[k].estimate)
           case _ => u.total == t.total + plans[k].estimate)
  }

  /**
   The loop goes on, or stops for the answer, only with one more answered send and the rest within the
   budget; it stops for the budget only with the rest beyond it.
   */
  predicate Weighed(cap: int, plans: seq<Plan>, resume: ResumeState, k: nat, t: Tally, u: Tally, stop: Option<Stop>)
    requires k < |plans|
  {
    match stop
    case None => OneMore(plans, k, t, u) && u.total + Remaining(plans, k + 1, resume.completed) <= cap
    case Some(BadReply) => OneMore(plans, k, t, u) && u.total + Remaining(plans, k + 1, resume.completed) <= cap
    case Some(OverBudget) => OneMore(plans, k, t, u) && u.total + Remaining(plans, k + 1, resume.completed) > cap
    case Some(reason) => reason.Killed? || reason.IntentUnwritten? || reason.NoReply? || reason.RowUnwritten?
  }

  lemma {:induction false} VerdictWeighs(cap: int, plans: seq<Plan>, resume: ResumeState, k: nat, t: Tally,
                                         effect: Effect)
    requires k < |plans| && EffectPossible(effect)
    ensures var u := TallyAfter(plans, t, k, effect);
            Weighed(cap, plans, resume, k, t, u, Verdict(cap, plans, resume, k, u, effect))
  {
    if effect.Recorded? {
      var u := TallyAfter(plans, t, k, effect);
      assert u.sends[..|t.sends|] == t.sends;
    }
  }

  lemma {:induction false} GoodIsValid(sends: seq<Send>)
    ensures GoodReplies(sends) <==> AllValid(sends)
  {}

  lemma {:induction false} StandingJudges(cap: int, plans: seq<Plan>, resume: ResumeState, t: Tally, k: nat,
                                          stop: Option<Stop>)
    requires Standing(cap, plans, resume, t, k, stop)
    ensures Judged(t.sends, stop)
  {
    GoodIsValid(t.sends);
    if stop.Some? {
      EndedJudges(cap, plans, resume, t, stop.value);
    }
  }

  lemma {:induction false} EndedJudges(cap: int, plans: seq<Plan>, resume: ResumeState, t: Tally, stop: Stop)
    requires Ended(cap, plans, resume, t, stop)
    ensures Judged(t.sends, Some(stop))
  {
    GoodIsValid(t.sends);
    if t.sends != [] {
      GoodIsValid(t.sends[..|t.sends| - 1]);
    }
  }

  lemma {:induction false} VerdictStands(cap: int, plans: seq<Plan>, resume: ResumeState, k: nat, t: Tally,
                                         effect: Effect)
    requires k < |plans| && Sound(cap, plans, resume, t, k) && plans[k].current !in resume.completed
    requires EffectPossible(effect)
    ensures var u := TallyAfter(plans, t, k, effect);
            Standing(cap, plans, resume, u, k + 1, Verdict(cap, plans, resume, k, u, effect))
  {
    match effect
    case Unsent(stop) => SoundMayStop(cap, plans, resume, t, k, stop);
    case Unrecorded(answer, stop) => SendMayStop(cap, plans, resume, t, k, answer, stop);
    case Recorded(reply) => AnswerStands(cap, plans, resume, k, t, reply);
  }

  lemma {:induction false} AnswerStands(cap: int, plans: seq<Plan>, resume: ResumeState, k: nat, t: Tally,
                                        reply: Reply)
    requires k < |plans| && Sound(cap, plans, resume, t, k) && plans[k].current !in resume.completed
    ensures var u := Settle(plans, t, k, Some(reply));
            Standing(cap, plans, resume, u, k + 1, Verdict(cap, plans, resume, k, u, Recorded(reply)))
  {
    var u := Settle(plans, t, k, Some(reply));
    if !Fits(cap, u.total + Remaining(plans, k + 1, resume.completed)) {
      SendMayStop(cap, plans, resume, t, k, Some(reply), OverBudget);
    } else if !GoodReply(reply) {
      SendMayStop(cap, plans, resume, t, k, Some(reply), BadReply);
    } else {
      SendMayContinue(cap, plans, resume, t, k, reply);
    }
  }

  /** One more recorded request, on the ledgers. */
  lemma {:induction false} AfterRecorded(rows: File<Row>, intents: File<Intent>, plans: seq<Plan>, t: Tally, k: nat,
                                         reply: Reply)
    requires k < |plans|
    ensures var u := Settle(plans, t, k, Some(reply));
            && RowsAfter(rows, plans, u.sends) == Appended(RowsAfter(rows, plans, t.sends), RowLine(plans[k], reply))
            && IntentsAfter(intents, plans, u.sends)
               == Appended(IntentsAfter(intents, plans, t.sends), IntentLine(plans[k]))
  {
    var u := Settle(plans, t, k, Some(reply));
    assert u.sends[..|u.sends| - 1] == t.sends;
  }

  lemma {:induction false} SoundIsUnderway(cap: int, rows0: File<Row>, rows: File<Row>, plans: seq<Plan>,
                                           planned: Planned, resume: ResumeState, t: Tally, k: nat)
    requires Sound(cap, plans, resume, t, k) && Resumed(rows0, plans, planned, resume)
             && rows == RowsAfter(rows0, plans, t.sends)
    ensures Underway(rows0, rows, plans, planned, resume, t, k)
  {}

  lemma {:induction false} WaitingNext(plans: seq<Plan>, completed: set<Fingerprint>, sent: seq<Fingerprint>, k: nat,
                                       more: seq<Fingerprint>)
    requires k < |plans| && DistinctPlans(plans) && Waiting(plans, completed, sent, k)
    requires more == sent || more == sent + [plans[k].current]
    ensures Waiting(plans, completed, more, k + 1)
  {}

  lemma {:induction false} VerdictJudges(cap: int, plans: seq<Plan>, resume: ResumeState, k: nat, t: Tally,
                                         effect: Effect)
    requires k < |plans| && Sound(cap, plans, resume, t, k) && plans[k].current !in resume.completed
    requires EffectPossible(effect)
    ensures var u := TallyAfter(plans, t, k, effect);
            var stop := Verdict(cap, plans, resume, k, u, effect);
            && Judged(u.sends, stop) && Weighed(cap, plans, resume, k, t, u, stop)
            && |u.sends| == |t.sends| + (if effect.Unsent? then 0 else 1)
            && (effect.Recorded? && stop.Some? ==> Answered(stop.value))
  {
    var u := TallyAfter(plans, t, k, effect);
    VerdictStands(cap, plans, resume, k, t, effect);
    StandingJudges(cap, plans, resume, u, k + 1, Verdict(cap, plans, resume, k, u, effect));
    VerdictWeighs(cap, plans, resume, k, t, effect);
  }

  /** Unless the run stopped with a request unanswered, the ledgers hold what the sends gave. */
  predicate Ledgered(rows0: File<Row>, intents0: File<Intent>, rows: File<Row>, intents: File<Intent>,
                     plans: seq<Plan>, sends: seq<Send>, stop: Option<Stop>) {
    match stop
    case None => rows == RowsAfter(rows0, plans, sends) && intents == IntentsAfter(intents0, plans, sends)
    case Some(reason) =>
      Answered(reason) ==> rows == RowsAfter(rows0, plans, sends) && intents == IntentsAfter(intents0, plans, sends)
  }

  /** One turn, whatever it came to: where the loop stands, what the ledgers hold, what they add up to. */
  lemma {:induction false} TurnSettles(cap: int, plans: seq<Plan>, resume: ResumeState, k: nat, t: Tally,
                                       effect: Effect, planned: Planned, rows0: File<Row>, intents0: File<Intent>,
                                       before: File<Row>, intentsBefore: File<Intent>,
                                       rows: File<Row>, intents: File<Intent>)
    requires k < |plans| && Sound(cap, plans, resume, t, k) && plans[k].current !in resume.completed
    requires EffectPossible(effect) && Left(plans[k], effect, before, intentsBefore, rows, intents)
    requires Resumed(rows0, plans, planned, resume)
             && Ledgered(rows0, intents0, before, intentsBefore, plans, t.sends, None)
    ensures var u := TallyAfter(plans, t, k, effect);
            var stop := Verdict(cap, plans, resume, k, u, effect);
            && Standing(cap, plans, resume, u, k + 1, stop)
            && Ledgered(rows0, intents0, rows, intents, plans, u.sends, stop)
            && Accounts(rows, intents, planned, u.total)
  {
    VerdictStands(cap, plans, resume, k, t, effect);
    SoundIsUnderway(cap, rows0, before, plans, planned, resume, t, k);
    EffectAccounts(rows0, before, intentsBefore, rows, intents, plans, planned, resume, t, k, effect);
    if effect.Recorded? {
      AfterRecorded(rows0, intents0, plans, t, k, effect.reply);
    }
  }

  predicate DistinctPlans(plans: seq<Plan>) {
    forall i, j :: 0 <= i < j < |plans| ==> plans[i].current != plans[j].current
  }

  /** No plan from k on that is still to be done was ever sent. */
  predicate Waiting(plans: seq<Plan>, completed: set<Fingerprint>, sent: seq<Fingerprint>, k: nat) {
    forall j :: k <= j < |plans| && plans[j].current !in completed ==> plans[j].current !in sent
  }

  /** The groups can be planned, the files are those of a first run or of a resume, and they load. */
  predicate Startable(args: Args, groups: seq<Group>, rows: File<Row>, intents: File<Intent>) {
    && groups != [] && Plannable(groups, |groups|)
    && (args.resume || (rows.Missing? && intents.Missing?))
    && Loadable(rows, intents, Table(groups, |groups|))
  }

  /** What was charged before and what every group not yet completed is estimated at. */
  function Ahead(groups: seq<Group>, rows: File<Row>): int
    requires Records(rows).Some? && RowsConsistent(Records(rows).value, Table(groups, |groups|))
  {
    Charged(Records(rows).value)
    + Remaining(PlansOf(groups), 0, Completed(Records(rows).value, Table(groups, |groups|)))
  }

  /** Why a run is refused before it writes or sends anything: the first of five reasons that holds. */
  predicate RefusedFor(args: Args, groups: seq<Group>, rows: File<Row>, intents: File<Intent>, refusal: Option<Stop>) {
    if !args.valid then refusal == Some(BadLimits)
    else if !Startable(args, groups, rows, intents) then refusal == Some(BadState)
    else if Cost(Ahead(groups, rows), args.price) > args.budget then refusal == Some(OverBudgetPlan)
    else if args.dryRun then refusal == Some(DryRun)
    else if !args.apiKey then refusal == Some(NoKey)
    else refusal == None
  }

  /** _run_owned up to its loop. */
  method Prepare(args: Args, groups: seq<Group>, rows: File<Row>, intents: File<Intent>)
    returns (refusal: Option<Stop>, plans: seq<Plan>, planned: Planned, resume: ResumeState)
    requires args.valid ==> args.price > 0.0
    ensures RefusedFor(args, groups, rows, intents, refusal) && (refusal.Some? ==> Refused(refusal.value))
    ensures refusal.None? || refusal == Some(DryRun) ==>
              && Startable(args, groups, rows, intents)
              && plans == PlansOf(groups) && planned == Table(groups, |groups|) && PlansAgree(plans, planned)
              && resume == StateOf(Records(rows).value, planned)
    ensures refusal.None? ==> WithinBudget(args, resume.charged + Remaining(plans, 0, resume.completed))
  {
    plans, planned, resume := [], map[], ResumeState({}, 0, {});
    if !args.valid {
      return Some(BadLimits), plans, planned, resume;
    }
    var valid;
    valid, plans, planned := BuildPlans(groups);
    if !valid || (!args.resume && !(rows.Missing? && intents.Missing?)) {
      return Some(BadState), plans, planned, resume;
    }
    var loaded := LoadResumeState(rows, intents, planned);
    if loaded.None? {
      return Some(BadState), plans, planned, resume;
    }
    resume := loaded.value;
    assert Startable(args, groups, rows, intents);
    var ahead := resume.charged + Remaining(plans, 0, resume.completed);
    assert ahead == Ahead(groups, rows);
    BudgetIsCapacity(args, ahead);
    refusal := if Cost(ahead, args.price) > args.budget then Some(OverBudgetPlan)
               else if args.dryRun then Some(DryRun)
               else if args.apiKey then None else Some(NoKey);
  }

  class Collector {
    var rows: File<Row>
    var intents: File<Intent>
    ghost var sent: seq<Fingerprint>

    /** Nothing was sent twice, and everything sent is guarded by the intent ledger. */
    ghost predicate Valid()
      reads this
    {
      Distinct(sent) && forall fp :: fp in sent ==> Guarded(intents, fp)
    }

    constructor (rows: File<Row>, intents: File<Intent>)
      ensures Valid() && this.rows == rows && this.intents == intents && sent == []
    {
      this.rows, this.intents, this.sent := rows, intents, [];
    }

    /** The write-ahead intent. */
    method WriteIntent(plan: Plan, calm: bool) returns (outcome: Outcome)
      requires Valid()
      modifies this`intents
      ensures Valid()
      ensures outcome == Ok ==> intents == Appended(old(intents), IntentLine(plan)) && Guarded(intents, plan.current)
      ensures MayFollow(old(intents), IntentLine(plan), intents)
      ensures calm ==> outcome == Ok
    {
      var after;
      outcome, after := AppendDurable(intents, IntentLine(plan), calm);
      forall fp | fp in sent ensures Guarded(after, fp) {
        GuardStays(intents, IntentLine(plan), after, fp);
      }
      GuardSet(intents, plan);
      intents := after;
    }

    /** The send itself: no reply is a transport error, and leaves the intent ambiguous. */
    method Transmit(plan: Plan, calm: bool) returns (reply: Option<Reply>)
      requires Valid() && Guarded(intents, plan.current) && plan.current !in sent
      modifies this`sent
      ensures Valid() && sent == old(sent) + [plan.current]
      ensures calm ==> reply.Some?
    {
      sent := sent + [plan.current];
      var answer: Reply, answered: bool := *, *;
      reply := if calm || answered then Some(answer) else None;
    }

    /**
     One request: the intent, the send, the row. Each step may fail, and the process may die after any;
     when nothing outside goes wrong the answer, whatever it is, is recorded.
     */
    method Exchange(plan: Plan, calm: bool) returns (effect: Effect)
      requires Valid() && plan.current !in sent
      modifies this
      ensures Valid()
      ensures sent == old(sent) + (if effect.Unsent? then [] else [plan.current])
      ensures EffectPossible(effect)
      ensures Left(plan, effect, old(rows), old(intents), rows, intents)
      ensures calm ==> effect.Recorded?
    {
      var outcome := WriteIntent(plan, calm);
      if outcome != Ok {
        return Unsent(if outcome == Died then Killed else IntentUnwritten);
      }
      var reply := Transmit(plan, calm);
      var killed: bool, keyFound: bool := *, *;
      if reply.None? || (!calm && (killed || keyFound)) {
        return Unrecorded(reply, if killed then Killed else if reply.None? then NoReply else RowUnwritten);
      }
      var after;
      outcome, after := AppendDurable(rows, RowLine(plan, reply.value), calm);
      rows := after;
      if outcome != Ok {
        return Unrecorded(reply, if outcome == Died then Killed else RowUnwritten);
      }
      return Recorded(reply.value);
    }

    /** One turn of the paid loop: one request is made, and judged. */
    method Turn(cap: int, plans: seq<Plan>, resume: ResumeState, k: nat, t: Tally, calm: bool,
                ghost planned: Planned, ghost rows0: File<Row>, ghost intents0: File<Intent>)
      returns (stop: Option<Stop>, u: Tally)
      requires Valid() && k < |plans| && Sound(cap, plans, resume, t, k)
      requires plans[k].current !in resume.completed && DistinctPlans(plans)
               && Waiting(plans, resume.completed, sent, k)
      requires Ledgered(rows0, intents0, rows, intents, plans, t.sends, None) && Resumed(rows0, plans, planned, resume)
      modifies this
      ensures Valid() && |sent| + |t.sends| == |old(sent)| + |u.sends|
      ensures Waiting(plans, resume.completed, sent, k + 1)
      ensures Standing(cap, plans, resume, u, k + 1, stop)
      ensures Ledgered(rows0, intents0, rows, intents, plans, u.sends, stop)
      ensures Accounts(rows, intents, planned, u.total)
      ensures Judged(u.sends, stop) && Weighed(cap, plans, resume, k, t, u, stop)
      ensures calm && stop.Some? ==> Answered(stop.value)
    {
      ghost var before, intentsBefore, sentBefore := rows, intents, sent;
      var effect := Exchange(plans[k], calm);
      u := TallyAfter(plans, t, k, effect);
      stop := Verdict(cap, plans, resume, k, u, effect);
      TurnSettles(cap, plans, resume, k, t, effect, planned, rows0, intents0, before, intentsBefore, rows, intents);
      VerdictJudges(cap, plans, resume, k, t, effect);
      WaitingNext(plans, resume.completed, sentBefore, k, sent);
    }

    /** The paid loop of _run_owned, from a resumed or fresh state on. */
    method TurnAll(cap: int, plans: seq<Plan>, resume: ResumeState, calm: bool, ghost planned: Planned)
      returns (early: Option<Stop>, t: Tally, completed: int)
      requires Valid()
      requires DistinctPlans(plans)
      requires Fits(cap, resume.charged + Remaining(plans, 0, resume.completed))
      requires Waiting(plans, resume.completed, sent, 0) && Resumed(rows, plans, planned, resume)
      modifies this
      ensures Valid() && |sent| == |old(sent)| + |t.sends|
      ensures Accounts(rows, intents, planned, t.total)
      ensures Standing(cap, plans, resume, t, |plans|, early)
      ensures early.None? ==> completed + Skipped(plans, |plans|, resume.completed) == |plans|
      ensures Ledgered(old(rows), old(intents), rows, intents, plans, t.sends, early)
      ensures Judged(t.sends, early)
      ensures calm && early.Some? ==> Answered(early.value)
    {
      ghost var rows0, intents0 := rows, intents;
      t, early, completed := Tally(resume.charged, []), None, 0;
      var k := 0;
      while k < |plans| && early.None?
        invariant 0 <= k <= |plans| && Valid() && |sent| == |old(sent)| + |t.sends|
        invariant Waiting(plans, resume.completed, sent, k)
        invariant Standing(cap, plans, resume, t, k, early)
        invariant early.None? ==> completed + Skipped(plans, k, resume.completed) == k
        invariant Ledgered(rows0, intents0, rows, intents, plans, t.sends, early)
        invariant Accounts(rows, intents, planned, t.total)
        invariant calm && early.Some? ==> Answered(early.value)
        decreases |plans| - k
      {
        SkippedStep(plans, k, resume.completed);
        if plans[k].current in resume.completed {
          SoundSkips(cap, plans, resume, t, k);
        } else {
          early, t := Turn(cap, plans, resume, k, t, calm, planned, rows0, intents0);
          completed := completed + 1;
        }
        k := k + 1;
      }
      StandingJudges(cap, plans, resume, t, k, early);
    }

    /** The loop and the exit code; exit is None when the process died. */
    method SendAll(cap: int, plans: seq<Plan>, resume: ResumeState, calm: bool, ghost planned: Planned)
      returns (exit: Option<int>, stop: Stop, t: Tally)
      requires Valid()
      requires DistinctPlans(plans)
      requires Fits(cap, resume.charged + Remaining(plans, 0, resume.completed))
      requires Skipped(plans, |plans|, resume.completed) == |resume.completed|
      requires Waiting(plans, resume.completed, sent, 0) && Resumed(rows, plans, planned, resume)
      modifies this
      ensures Valid() && |sent| == |old(sent)| + |t.sends| && !Refused(stop)
      ensures Accounts(rows, intents, planned, t.total)
      ensures Ended(cap, plans, resume, t, stop)
      ensures exit == Some(0) <==> stop == Finished && resume.failures == {}
      ensures calm ==> Answered(stop)
      ensures Answered(stop) ==> rows == RowsAfter(old(rows), plans, t.sends)
      ensures Answered(stop) ==> intents == IntentsAfter(old(intents), plans, t.sends)
    {
      var skipped, failed := |resume.completed|, |resume.failures|;
      var early, completed;
      early, t, completed := TurnAll(cap, plans, resume, calm, planned);
      if early.None? {
        stop := Finished;
        SoundMayStop(cap, plans, resume, t, |plans|, Finished);
        exit := if failed == 0 && completed + skipped == |plans| then Some(0) else Some(1);
      } else {
        stop := early.value;
        exit := if stop == Killed then None else Some(1);
      }
    }

    /**
     _run_owned. Plans and resume state are returned so that the outcome can be stated in their terms.
     A run is refused, before anything is written or sent, exactly for the first of five reasons; when
     nothing outside goes wrong, any other run has every answer it asked for on record when it ends.
     */
    method Run(args: Args, groups: seq<Group>, calm: bool)
      returns (exit: Option<int>, stop: Stop, t: Tally, plans: seq<Plan>, planned: Planned, resume: ResumeState)
      requires Valid() && (args.valid ==> args.price > 0.0)
      modifies this
      ensures Valid() && |sent| == |old(sent)| + |t.sends|
      ensures Refused(stop) ==> rows == old(rows) && intents == old(intents) && sent == old(sent)
      ensures Refused(stop) && !stop.DryRun? ==> exit == Some(2)
      ensures !Refused(stop) ==> plans == PlansOf(groups) && planned == Table(groups, |groups|)
      ensures !Refused(stop) ==> args.valid && (args.resume || (old(rows).Missing? && old(intents).Missing?))
      ensures !Refused(stop) ==> RanTo(args, plans, planned, old(rows), old(intents), rows, intents, resume, t, stop)
      ensures !Refused(stop) ==> (exit == Some(0) <==> stop == Finished && resume.failures == {})
      ensures !Refused(stop) ==> Judged(t.sends, Some(stop))
      ensures calm && !Refused(stop) ==> Answered(stop)
      ensures RefusedFor(args, groups, old(rows), old(intents), if Refused(stop) then Some(stop) else None)
      ensures stop.DryRun? ==>
                exit == Some(if Failures(Records(old(rows)).value, Table(groups, |groups|)) == {} then 0 else 1)
    {
      t := Tally(0, []);
      var refusal;
      refusal, plans, planned, resume := Prepare(args, groups, rows, intents);
      if refusal.Some? {
        stop := refusal.value;
        exit := if !stop.DryRun? then Some(2) else Some(if resume.failures == {} then 0 else 1);
        return;
      }
      ReadyToSend(rows, intents, plans, planned, sent);
      exit, stop, t := SendAll(Capacity(args), plans, resume, calm, planned);
      EndedJudges(Capacity(args), plans, resume, t, stop);
    }
  }

  /** What a loadable pair of ledgers gives the paid loop. */
  lemma {:induction false} ReadyToSend(rows: File<Row>, intents: File<Intent>, plans: seq<Plan>, planned: Planned,
                                       sent: seq<Fingerprint>)
    requires PlansAgree(plans, planned) && Loadable(rows, intents, planned)
    requires forall fp :: fp in sent ==> Guarded(intents, fp)
    ensures var completed := StateOf(Records(rows).value, planned).completed;
            && Skipped(plans, |plans|, completed) == |completed|
            && Waiting(plans, completed, sent, 0)
  {
    AllSkippedArePlans(plans, planned, Records(rows).value);
    forall k | 0 <= k < |plans| && plans[k].current in sent
      ensures plans[k].current in Completed(Records(rows).value, planned)
    {
      SentIsCompleted(rows, intents, plans, planned, k);
    }
  }

  /**
   In money: before every send, what was charged and all unfinished estimates cost at most the budget;
   the final total exceeds the budget by at most the cost of the last response's over-report.
   */
  lemma {:induction false} SpendingBounded(args: Args, plans: seq<Plan>, resume: ResumeState, t: Tally, stop: Stop)
    requires args.price > 0.0 && Ended(Capacity(args), plans, resume, t, stop)
    ensures forall i :: 0 <= i < |t.sends| ==>
              Cost(t.sends[i].before + Remaining(plans, t.sends[i].index, resume.completed), args.price) <= args.budget
    ensures t.sends == [] ==> Cost(t.total, args.price) <= args.budget
    ensures t.sends != [] ==>
              Cost(t.total, args.price) <= args.budget + Cost(OverReport(plans, t.sends[|t.sends| - 1]), args.price)
    ensures t.sends != [] && ChargeOf(plans, t.sends[|t.sends| - 1]) <= plans[t.sends[|t.sends| - 1].index].estimate ==>
              Cost(t.total, args.price) <= args.budget
  {
    forall i | 0 <= i < |t.sends|
      ensures Cost(t.sends[i].before + Remaining(plans, t.sends[i].index, resume.completed), args.price) <= args.budget
    {
      BudgetIsCapacity(args, t.sends[i].before + Remaining(plans, t.sends[i].index, resume.completed));
    }
    BudgetIsCapacity(args, t.total);
    if t.sends != [] {
      var over := OverReport(plans, t.sends[|t.sends| - 1]);
      BudgetIsCapacity(args, t.total - over);
      CostAdds(t.total - over, over, args.price);
    }
  }

  /** A run that was not refused: from which ledgers, by which sends, to which ledgers. */
  predicate RanTo(args: Args, plans: seq<Plan>, planned: Planned, rows0: File<Row>, intents0: File<Intent>,
                  rows1: File<Row>, intents1: File<Intent>, resume: ResumeState, t: Tally, stop: Stop) {
    && args.price > 0.0 && PlansAgree(plans, planned) && Loadable(rows0, intents0, planned)
    && resume == StateOf(Records(rows0).value, planned)
    && Ended(Capacity(args), plans, resume, t, stop) && Accounts(rows1, intents1, planned, t.total)
    && (Answered(stop) ==>
          rows1 == RowsAfter(rows0, plans, t.sends) && intents1 == IntentsAfter(intents0, plans, t.sends))
  }

  lemma {:induction false} ChainIsFresh(cap: int, plans: seq<Plan>, resume: ResumeState, sends: seq<Send>, total: int)
    requires SendsAllowed(cap, plans, resume.completed, sends) && SendsChain(plans, sends, resume.charged, total)
    ensures FreshSends(plans, resume, sends)
    decreases |sends|
  {
    if sends != [] {
      var most := sends[..|sends| - 1];
      assert forall i :: 0 <= i < |most| ==> most[i] == sends[i];
      ChainIsFresh(cap, plans, resume, most, sends[|sends| - 1].before);
      forall i, j | 0 <= i < j < |sends| ensures sends[i].index < sends[j].index {
        if j < |most| {
          assert most[i].index < most[j].index;
        }
      }
    }
  }

  /** Lines for these sends can be read back: both files can be appended to, and the plans' texts are in order. */
  predicate Storable(rows0: File<Row>, intents0: File<Intent>, plans: seq<Plan>, sends: seq<Send>) {
    sends == [] || (Appendable(rows0) && Appendable(intents0) && PlansStorable(plans, sends))
  }

  /**
   Resume refines continuing: after a run whose requests were all answered, the two ledgers can be
   reloaded if and only if the rows were storable and every answer is a readable one; and then
   they give exactly the completed set, the charged total and the failures the run arrived at.
   */
  lemma {:induction false} ResumeRefinesContinuing(args: Args, plans: seq<Plan>, planned: Planned,
                                                   rows0: File<Row>, intents0: File<Intent>,
                                                   rows1: File<Row>, intents1: File<Intent>,
                                                   resume: ResumeState, t: Tally, stop: Stop)
    requires RanTo(args, plans, planned, rows0, intents0, rows1, intents1, resume, t, stop) && Answered(stop)
    ensures Loadable(rows1, intents1, planned) <==> Storable(rows0, intents0, plans, t.sends) && AllReadable(t.sends)
    ensures Loadable(rows1, intents1, planned) ==> InStep(rows1, intents1, planned, LiveAfter(resume, plans, t.sends))
    ensures LiveAfter(resume, plans, t.sends).charged == t.total
  {
    ChainIsFresh(Capacity(args), plans, resume, t.sends, t.total);
    LiveTotal(plans, resume, t.sends, t.total);
    if t.sends != [] {
      assert t.sends[|t.sends| - 1].reply.Some?;
      if Storable(rows0, intents0, plans, t.sends) && AllReadable(t.sends) {
        SendsKeepStep(rows0, intents0, plans, planned, resume, t.sends);
      } else {
        NotReloaded(rows0, intents0, plans, planned, t.sends);
      }
    }
  }

  lemma {:induction false} NotReloaded(rows0: File<Row>, intents0: File<Intent>, plans: seq<Plan>, planned: Planned,
                                       sends: seq<Send>)
    requires forall i :: 0 <= i < |sends| ==> sends[i].index < |plans| && sends[i].reply.Some?
    requires !(Storable(rows0, intents0, plans, sends) && AllReadable(sends))
    ensures !Loadable(RowsAfter(rows0, plans, sends), IntentsAfter(intents0, plans, sends), planned)
  {
    if !Appendable(rows0) {
      UncleanRowsTorn(rows0, plans, sends);
    } else if !Appendable(intents0) {
      UncleanIntentsTorn(intents0, plans, sends);
    } else {
      var i :| 0 <= i < |sends| && !(PlanStorable(plans[sends[i].index]) && AnswerReadable(sends[i].reply.value));
      var line := RowLine(plans[sends[i].index], sends[i].reply.value);
      LineIsLedgered(rows0, plans, sends, i);
      LineIsBad(plans[sends[i].index], sends[i].reply.value);
      BadLineBlocksResume(RowsAfter(rows0, plans, sends), IntentsAfter(intents0, plans, sends), planned, line);
    }
  }

  lemma {:induction false} LineIsBad(plan: Plan, reply: Reply)
    requires !PlanStorable(plan) || !AnswerReadable(reply)
    ensures var line := RowLine(plan, reply);
            line.Whole? ==> !(100 <= line.value.status <= 599) || !line.value.textLabels
  {}

  lemma {:induction false} LiveTotal(plans: seq<Plan>, resume: ResumeState, sends: seq<Send>, total: int)
    requires SendsChain(plans, sends, resume.charged, total)
    ensures LiveAfter(resume, plans, sends).charged == total
    decreases |sends|
  {
    if sends != [] {
      LiveTotal(plans, resume, sends[..|sends| - 1], sends[|sends| - 1].before);
    }
  }

  /** The row of an answer that counts: status 200, its token count absent or a number, its scores in order. */
  predicate ValidRow(row: Row) {
    row.status == 200 && (row.reported.NotReported? || row.reported.Count?) && row.scoresValid
  }

  predicate HasRow(rows: seq<Row>, planned: Planned, current: Fingerprint) {
    exists i :: 0 <= i < |rows| && rows[i].fingerprint in planned && planned[rows[i].fingerprint].current == current
  }

  /** The ledgers load, every planned group has a row, and every row is valid. */
  predicate LedgerComplete(rows: File<Row>, intents: File<Intent>, plans: seq<Plan>, planned: Planned) {
    && Loadable(rows, intents, planned)
    && (forall k :: 0 <= k < |plans| ==> HasRow(Records(rows).value, planned, plans[k].current))
    && (forall i :: 0 <= i < |Records(rows).value| ==> ValidRow(Records(rows).value[i]))
  }

  /** The same from the state a resume would compute. */
  lemma {:induction false} CompleteByState(rows: File<Row>, intents: File<Intent>, plans: seq<Plan>, planned: Planned)
    requires Loadable(rows, intents, planned)
    ensures LedgerComplete(rows, intents, plans, planned)
            <==> AllIn(plans, Completed(Records(rows).value, planned)) && Failures(Records(rows).value, planned) == {}
  {
    var held := Records(rows).value;
    forall k | 0 <= k < |plans|
      ensures HasRow(held, planned, plans[k].current) <==> plans[k].current in Completed(held, planned)
    {
    }
    NoFailures(held, planned);
  }

  lemma {:induction false} NoFailures(rows: seq<Row>, planned: Planned)
    requires forall i :: 0 <= i < |rows| ==> rows[i].fingerprint in planned
    ensures Failures(rows, planned) == {} <==> forall i :: 0 <= i < |rows| ==> ValidRow(rows[i])
  {
    forall i | 0 <= i < |rows|
      ensures !ValidRow(rows[i]) ==> planned[rows[i].fingerprint].current in Failures(rows, planned)
    {
    }
  }

  lemma {:induction false} LiveHoldsSend(resume: ResumeState, plans: seq<Plan>, sends: seq<Send>, i: nat)
    requires i < |sends| && sends[i].reply.Some? && sends[i].index < |plans|
    ensures plans[sends[i].index].current in LiveAfter(resume, plans, sends).completed
    ensures !GoodReply(sends[i].reply.value) ==>
              plans[sends[i].index].current in LiveAfter(resume, plans, sends).failures
    decreases |sends|
  {
    if i < |sends| - 1 {
      LiveHoldsSend(resume, plans, sends[..|sends| - 1], i);
    }
  }

  lemma {:induction false} LiveKeeps(resume: ResumeState, plans: seq<Plan>, sends: seq<Send>)
    ensures resume.completed <= LiveAfter(resume, plans, sends).completed
    ensures resume.failures <= LiveAfter(resume, plans, sends).failures
    ensures GoodReplies(sends) ==> LiveAfter(resume, plans, sends).failures == resume.failures
    decreases |sends|
  {
    if sends != [] {
      LiveKeeps(resume, plans, sends[..|sends| - 1]);
    }
  }

  lemma {:induction false} SomethingRemains(plans: seq<Plan>, k: nat, completed: set<Fingerprint>)
    requires k <= |plans| && Remaining(plans, k, completed) > 0
    ensures exists j :: k <= j < |plans| && plans[j].current !in completed
    decreases |plans| - k
  {
    if plans[k].current in completed {
      SomethingRemains(plans, k + 1, completed);
    }
  }

  /** After an over-budget stop, either the total itself is too much or some plan was never sent. */
  lemma {:induction false} OverBudgetLeaves(cap: int, plans: seq<Plan>, resume: ResumeState, t: Tally)
    requires Ended(cap, plans, resume, t, OverBudget) && Fits(cap, t.total)
    requires forall i, j :: 0 <= i < j < |plans| ==> plans[i].current != plans[j].current
    ensures exists j :: 0 <= j < |plans| && plans[j].current !in LiveAfter(resume, plans, t.sends).completed
  {
    var k := t.sends[|t.sends| - 1].index;
    assert t.total + 0 == t.total;
    SomethingRemains(plans, k + 1, resume.completed);
    var j :| k + 1 <= j < |plans| && plans[j].current !in resume.completed;
    ChainIsFresh(cap, plans, resume, t.sends, t.total);
    forall i | 0 <= i < |t.sends| ensures plans[t.sends[i].index].current != plans[j].current {
      assert t.sends[i].index <= k < j;
    }
    NotLive(resume, plans, t.sends, plans[j].current);
  }

  predicate AllIn(plans: seq<Plan>, completed: set<Fingerprint>) {
    forall k :: 0 <= k < |plans| ==> plans[k].current in completed
  }

  lemma {:induction false} InStepComplete(rows: File<Row>, intents: File<Intent>, plans: seq<Plan>, planned: Planned,
                                          live: ResumeState)
    requires InStep(rows, intents, planned, live)
    ensures LedgerComplete(rows, intents, plans, planned) <==> AllIn(plans, live.completed) && live.failures == {}
    ensures Charged(Records(rows).value) == live.charged
  {
    CompleteByState(rows, intents, plans, planned);
  }

  /** The verdict of a run, in terms of the state it arrived at. */
  lemma {:induction false} LiveVerdict(cap: int, plans: seq<Plan>, resume: ResumeState, t: Tally, stop: Stop)
    requires Ended(cap, plans, resume, t, stop) && Answered(stop)
    requires forall i, j :: 0 <= i < j < |plans| ==> plans[i].current != plans[j].current
    ensures var live := LiveAfter(resume, plans, t.sends);
            (stop == Finished && resume.failures == {})
            <==> AllIn(plans, live.completed) && live.failures == {} && Fits(cap, t.total)
  {
    LiveKeeps(resume, plans, t.sends);
    match stop
    case Finished =>
      assert Remaining(plans, |plans|, resume.completed) == 0;
    case BadReply =>
      LiveHoldsSend(resume, plans, t.sends, |t.sends| - 1);
    case OverBudget =>
      if Fits(cap, t.total) {
        OverBudgetLeaves(cap, plans, resume, t);
      }
  }

  /** Known before the run: nothing is left to send, or what is left can be stored and read back. */
  predicate ReadyToStore(rows0: File<Row>, intents0: File<Intent>, plans: seq<Plan>, completed: set<Fingerprint>) {
    || AllIn(plans, completed)
    || (&& Appendable(rows0) && Appendable(intents0)
        && (forall k :: 0 <= k < |plans| && plans[k].current !in completed ==> PlanStorable(plans[k])))
  }

  /** No answer holds a separator in what is kept of it. */
  predicate AnswersOneLine(sends: seq<Send>) {
    forall i :: 0 <= i < |sends| && sends[i].reply.Some? ==> OneLine(sends[i].reply.value.kept)
  }

  lemma {:induction false} GoodAnswersReadable(sends: seq<Send>)
    requires GoodReplies(sends)
    ensures AllReadable(sends) <==> AnswersOneLine(sends)
  {
    forall i | 0 <= i < |sends|
      ensures AnswerReadable(sends[i].reply.value) <==> OneLine(sends[i].reply.value.kept)
    {
      assert GoodReply(sends[i].reply.value);
    }
  }

  /** A finished run sent exactly the plans that were not completed. */
  lemma {:induction false} FinishedSentAll(cap: int, plans: seq<Plan>, resume: ResumeState, t: Tally, k: nat)
    returns (i: nat)
    requires Ended(cap, plans, resume, t, Finished) && DistinctPlans(plans)
    requires k < |plans| && plans[k].current !in resume.completed
    ensures i < |t.sends| && t.sends[i].index == k
  {
    if forall i :: 0 <= i < |t.sends| && t.sends[i].index < |plans| ==>
          plans[t.sends[i].index].current != plans[k].current {
      NotLive(resume, plans, t.sends, plans[k].current);
    }
    i :| 0 <= i < |t.sends| && t.sends[i].index < |plans| && plans[t.sends[i].index].current == plans[k].current;
  }

  lemma {:induction false} StorableBeforehand(cap: int, plans: seq<Plan>, rows0: File<Row>, intents0: File<Intent>,
                                              resume: ResumeState, t: Tally)
    requires Ended(cap, plans, resume, t, Finished) && DistinctPlans(plans)
    ensures Storable(rows0, intents0, plans, t.sends) <==> ReadyToStore(rows0, intents0, plans, resume.completed)
  {
    forall i | 0 <= i < |t.sends|
      ensures t.sends[i].index < |plans| && plans[t.sends[i].index].current !in resume.completed
    {
      assert SendAllowed(cap, plans, resume.completed, t.sends[i]);
    }
    forall k | 0 <= k < |plans| && plans[k].current !in resume.completed
      ensures exists i :: 0 <= i < |t.sends| && t.sends[i].index == k
    {
      var i := FinishedSentAll(cap, plans, resume, t, k);
    }
    if t.sends != [] {
      assert plans[t.sends[0].index].current !in resume.completed;
    }
  }

  /**
   A run whose requests were all answered leaves one valid row with status 200 for every planned group,
   and a charged total within the budget, if and only if it exits 0, what was left to send could be
   stored, and no answer holds a separator.
   */
  lemma {:induction false} ExitZeroMeansComplete(args: Args, plans: seq<Plan>, planned: Planned,
                                                 rows0: File<Row>, intents0: File<Intent>,
                                                 rows1: File<Row>, intents1: File<Intent>,
                                                 resume: ResumeState, t: Tally, stop: Stop)
    requires RanTo(args, plans, planned, rows0, intents0, rows1, intents1, resume, t, stop) && Answered(stop)
    ensures (&& stop == Finished && resume.failures == {} && ReadyToStore(rows0, intents0, plans, resume.completed)
             && AnswersOneLine(t.sends))
            <==> LedgerComplete(rows1, intents1, plans, planned) && WithinBudget(args, Charged(Records(rows1).value))
  {
    ResumeRefinesContinuing(args, plans, planned, rows0, intents0, rows1, intents1, resume, t, stop);
    LiveVerdict(Capacity(args), plans, resume, t, stop);
    if stop == Finished {
      StorableBeforehand(Capacity(args), plans, rows0, intents0, resume, t);
      GoodAnswersReadable(t.sends);
    }
    if Loadable(rows1, intents1, planned) {
      InStepComplete(rows1, intents1, plans, planned, LiveAfter(resume, plans, t.sends));
    }
  }

  /** A ledger that was complete can still make the run fail: the last response was over budget. */
  lemma {:induction false} CompleteButOverBudget(args: Args, plans: seq<Plan>, planned: Planned,
                                                 rows0: File<Row>, intents0: File<Intent>,
                                                 rows1: File<Row>, intents1: File<Intent>,
                                                 resume: ResumeState, t: Tally)
    requires RanTo(args, plans, planned, rows0, intents0, rows1, intents1, resume, t, OverBudget)
    requires LedgerComplete(rows1, intents1, plans, planned)
    ensures !WithinBudget(args, Charged(Records(rows1).value))
  {
    ExitZeroMeansComplete(args, plans, planned, rows0, intents0, rows1, intents1, resume, t, OverBudget);
  }

  /** One more good answer ends the run: it finishes, with these sends and no failure of its own. */
  lemma {:induction false} LastPlanFinishes(cap: int, plans: seq<Plan>, resume: ResumeState, reply: Reply)
    requires plans != [] && GoodReply(reply)
    requires plans[|plans| - 1].current !in resume.completed
    requires forall j :: 0 <= j < |plans| - 1 ==> plans[j].current in resume.completed
    requires Fits(cap, resume.charged + plans[|plans| - 1].estimate)
    requires Fits(cap, resume.charged + ChargedTokens(reply.reported, plans[|plans| - 1].estimate))
    ensures Ended(cap, plans, resume, Settle(plans, Tally(resume.charged, []), |plans| - 1, Some(reply)), Finished)
  {
    var k, t := |plans| - 1, Tally(resume.charged, []);
    assert Remaining(plans, k + 1, resume.completed) == 0;
    assert Remaining(plans, k, resume.completed) == plans[k].estimate;
    SendMayContinue(cap, plans, resume, t, k, reply);
    SoundMayStop(cap, plans, resume, Settle(plans, t, k, Some(reply)), k + 1, Finished);
  }

  /**
   A run over this one plan that starts without files, gets this answer and finishes without failures,
   and that leaves ledgers which never load.
   */
  predicate LostRun(args: Args, plan: Plan, planned: Planned, reply: Reply) {
    match Settle([plan], Tally(0, []), 0, Some(reply))
    case Tally(total, sends) =>
      var rows1, intents1 := Appended(Missing, RowLine(plan, reply)), Appended(Missing, IntentLine(plan));
      && RanTo(args, [plan], planned, Missing, Missing, rows1, intents1, ResumeState({}, 0, {}), Tally(total, sends),
               Finished)
      && !Loadable(rows1, intents1, planned)
  }

  /** A run over one plan without files that gets this good answer finishes. */
  lemma {:induction false} OneAnswerRun(args: Args, plan: Plan, planned: Planned, reply: Reply)
    requires PlansAgree([plan], planned) && GoodReply(reply)
    requires WithinBudget(args, plan.estimate) && WithinBudget(args, ChargedTokens(reply.reported, plan.estimate))
    ensures RanTo(args, [plan], planned, Missing, Missing,
                  Appended(Missing, RowLine(plan, reply)), Appended(Missing, IntentLine(plan)),
                  ResumeState({}, 0, {}), Settle([plan], Tally(0, []), 0, Some(reply)), Finished)
  {
    OneAnswerAccounts(plan, planned, reply);
    AfterRecorded(Missing, Missing, [plan], Tally(0, []), 0, reply);
    LastPlanFinishes(Capacity(args), [plan], ResumeState({}, 0, {}), reply);
  }

  lemma {:induction false} OneAnswerAccounts(plan: Plan, planned: Planned, reply: Reply)
    requires PlansAgree([plan], planned)
    ensures Accounts(Appended(Missing, RowLine(plan, reply)), Appended(Missing, IntentLine(plan)), planned,
                     Settle([plan], Tally(0, []), 0, Some(reply)).total)
  {
    AnswerAccounts(Missing, Missing, Missing, Appended(Missing, RowLine(plan, reply)), [plan], planned,
                   ResumeState({}, 0, {}), Tally(0, []), 0, reply);
  }

  /**
   A plan whose labels are not text or hold a separator, or an answer that holds one, is paid for, makes
   the run exit 0, and leaves a ledger that can never be loaded again.
   */
  lemma {:induction false} UnstorableAnswerLost(args: Args, plan: Plan, planned: Planned, reply: Reply)
    requires PlansAgree([plan], planned) && GoodReply(reply) && (!PlanStorable(plan) || !OneLine(reply.kept))
    requires WithinBudget(args, plan.estimate) && WithinBudget(args, ChargedTokens(reply.reported, plan.estimate))
    ensures LostRun(args, plan, planned, reply)
  {
    var resume, t := ResumeState({}, 0, {}), Settle([plan], Tally(0, []), 0, Some(reply));
    var rows1, intents1 := Appended(Missing, RowLine(plan, reply)), Appended(Missing, IntentLine(plan));
    OneAnswerRun(args, plan, planned, reply);
    ResumeRefinesContinuing(args, [plan], planned, Missing, Missing, rows1, intents1, resume, t, Finished);
    assert t.sends[0].index == 0 && t.sends[0].reply == Some(reply);
  }

  /** A corpus whose labels are not text. */
  lemma {:induction false} NonTextPlanLost(args: Args, plan: Plan, planned: Planned, reply: Reply)
    requires PlansAgree([plan], planned) && !plan.textLabels && GoodReply(reply)
    requires WithinBudget(args, plan.estimate) && WithinBudget(args, ChargedTokens(reply.reported, plan.estimate))
    ensures LostRun(args, plan, planned, reply)
  {
    UnstorableAnswerLost(args, plan, planned, reply);
  }

  const SPLIT_LABEL: string := "a\U{2028}b"

  /** A document id with a line separator in it: text, and broken up by the reader. */
  lemma {:induction false} SeparatorInLabelLost(args: Args, plan: Plan, planned: Planned, reply: Reply)
    requires PlansAgree([plan], planned) && plan.textLabels && plan.labels == SPLIT_LABEL && GoodReply(reply)
    requires WithinBudget(args, plan.estimate) && WithinBudget(args, ChargedTokens(reply.reported, plan.estimate))
    ensures LostRun(args, plan, planned, reply)
  {
    assert SPLIT_LABEL[1] in SEPARATORS;
    UnstorableAnswerLost(args, plan, planned, reply);
  }

  /** A request id with a line separator in it, from the provider, over a plan that is in order. */
  lemma {:induction false} SeparatorInReplyLost(args: Args, plan: Plan, planned: Planned, reply: Reply)
    requires PlansAgree([plan], planned) && PlanStorable(plan) && reply.kept == SPLIT_LABEL && GoodReply(reply)
    requires WithinBudget(args, plan.estimate) && WithinBudget(args, ChargedTokens(reply.reported, plan.estimate))
    ensures LostRun(args, plan, planned, reply)
  {
    assert SPLIT_LABEL[1] in SEPARATORS;
    UnstorableAnswerLost(args, plan, planned, reply);
  }

  /**
   An append that stopped before its newline loads, and the next run resumes from it; that run's own
   append then tears the line, so that it exits 0 with a ledger that can never be loaded again.
   */
  lemma {:induction false} UnterminatedRowLost(args: Args, a: Plan, b: Plan, planned: Planned, first: Reply,
                                               second: Reply)
    requires PlansAgree([a, b], planned) && PlanStorable(a) && OneLine(first.kept)
    requires GoodReply(first) && GoodReply(second)
    requires WithinBudget(args, ChargedTokens(first.reported, a.estimate) + b.estimate)
    requires WithinBudget(args, ChargedTokens(first.reported, a.estimate) + ChargedTokens(second.reported, b.estimate))
    ensures var rows0, intents0 := Fragment(Missing, RowLine(a, first), true), Appended(Missing, IntentLine(a));
            var resume := ResumeState({a.current}, ChargedTokens(first.reported, a.estimate), {});
            var t := Settle([a, b], Tally(resume.charged, []), 1, Some(second));
            var rows1, intents1 := Appended(rows0, RowLine(b, second)), Appended(intents0, IntentLine(b));
            && RanTo(args, [a, b], planned, rows0, intents0, rows1, intents1, resume, t, Finished)
            && !Loadable(rows1, intents1, planned)
  {
    var plans := [a, b];
    var rows0, intents0 := Fragment(Missing, RowLine(a, first), true), Appended(Missing, IntentLine(a));
    var resume := ResumeState({a.current}, ChargedTokens(first.reported, a.estimate), {});
    assert plans[0] == a && plans[1] == b;
    OneRowLoads(plans, planned, first);
    LastPlanFinishes(Capacity(args), plans, resume, second);
    var t := Settle(plans, Tally(resume.charged, []), 1, Some(second));
    AfterRecorded(rows0, intents0, plans, Tally(resume.charged, []), 1, second);
    var rows1, intents1 := Appended(rows0, RowLine(b, second)), Appended(intents0, IntentLine(b));
    EffectAccounts(rows0, rows0, intents0, rows1, intents1, plans, planned, resume, Tally(resume.charged, []), 1,
                   Recorded(second));
    ResumeRefinesContinuing(args, plans, planned, rows0, intents0, rows1, intents1, resume, t, Finished);
  }

  lemma {:induction false} OneRowLoads(plans: seq<Plan>, planned: Planned, reply: Reply)
    requires PlansAgree(plans, planned) && plans != [] && PlanStorable(plans[0])
    requires OneLine(reply.kept) && GoodReply(reply)
    ensures InStep(Fragment(Missing, RowLine(plans[0], reply), true), Appended(Missing, IntentLine(plans[0])), planned,
                   ResumeState({plans[0].current}, ChargedTokens(reply.reported, plans[0].estimate), {}))
  {
    var plan := plans[0];
    var row, intent := RowFor(plan, reply), IntentFor(plan);
    var rows, intents := Fragment(Missing, RowLine(plan, reply), true), Appended(Missing, IntentLine(plan));
    RowOfPlan(plans, planned, 0, reply);
    assert rows.lines == [Whole(row)] && intents.lines == [Whole(intent)];
    assert Records(rows).value == [row] && Records(intents).value == [intent];
    assert [row][..0] == [];
    assert Charged([row]) == row.charged;
  }

  /** Any number of runs, each with its own arguments and corpus, each of which may die anywhere. */
  method RunMany(collector: Collector, jobs: seq<(Args, seq<Group>)>)
    requires collector.Valid()
    requires forall i :: 0 <= i < |jobs| && jobs[i].0.valid ==> jobs[i].0.price > 0.0
    modifies collector
    ensures collector.Valid() && Distinct(collector.sent)
  {
    for i := 0 to |jobs|
      invariant collector.Valid()
    {
      var _, _, _, _, _, _ := collector.Run(jobs[i].0, jobs[i].1, false);
    }
  }

  function ChargesOf(plans: seq<Plan>, sends: seq<Send>): nat {
    if sends == [] then 0 else ChargesOf(plans, sends[..|sends| - 1]) + ChargeOf(plans, sends[|sends| - 1])
  }

  lemma {:induction false} ChargesAppend(plans: seq<Plan>, a: seq<Send>, b: seq<Send>)
    ensures ChargesOf(plans, a + b) == ChargesOf(plans, a) + ChargesOf(plans, b)
    decreases |b|
  {
    if b == [] {
      assert a + b == a;
    } else {
      assert (a + b)[..|a + b| - 1] == a + b[..|b| - 1];
      ChargesAppend(plans, a, b[..|b| - 1]);
    }
  }

  lemma {:induction false} ChainSums(plans: seq<Plan>, sends: seq<Send>, start: int, total: int)
    requires SendsChain(plans, sends, start, total)
    ensures total == start + ChargesOf(plans, sends)
    decreases |sends|
  {
    if sends != [] {
      ChainSums(plans, sends[..|sends| - 1], start, sends[|sends| - 1].before);
    }
  }

  /** What the ledgers held for these groups, when they can be resumed. */
  function HeldBefore(rows: File<Row>, intents: File<Intent>, planned: Planned): int {
    if Loadable(rows, intents, planned) then Charged(Records(rows).value) else 0
  }

  /** What was over-reported by the last of these sends, if there is one. */
  function LastOver(plans: seq<Plan>, sends: seq<Send>): nat {
    if sends == [] then 0 else OverReport(plans, sends[|sends| - 1])
  }

  /** Where an experiment of several runs stands. */
  predicate Paid(cap: int, plans: seq<Plan>, planned: Planned, held: int,
                 rows: File<Row>, intents: File<Intent>, sends: seq<Send>, over: nat) {
    && Accounts(rows, intents, planned, held + ChargesOf(plans, sends))
    && (sends != [] ==> Fits(cap, held + ChargesOf(plans, sends) - over))
    && (over > 0 ==> exists i :: 0 <= i < |sends| && over == OverReport(plans, sends[i]))
  }

  /**
   One more run of the same experiment. What it starts from is what all earlier runs were charged,
   because a request that was answered and not recorded leaves an intent no run gets past.
   */
  lemma {:induction false} OneMoreRun(cap: int, plans: seq<Plan>, planned: Planned, held: int, sends: seq<Send>,
                                      over: nat, rows0: File<Row>, intents0: File<Intent>,
                                      rows1: File<Row>, intents1: File<Intent>,
                                      resume: ResumeState, t: Tally, stop: Stop)
    returns (next: nat)
    requires Paid(cap, plans, planned, held, rows0, intents0, sends, over)
    requires Loadable(rows0, intents0, planned) && resume == StateOf(Records(rows0).value, planned)
    requires Ended(cap, plans, resume, t, stop) && Accounts(rows1, intents1, planned, t.total)
    ensures Paid(cap, plans, planned, held, rows1, intents1, sends + t.sends, next)
  {
    var all := sends + t.sends;
    next := LastOver(plans, t.sends);
    assert t.total == held + ChargesOf(plans, all) by {
      ChainSums(plans, t.sends, resume.charged, t.total);
      ChargesAppend(plans, sends, t.sends);
    }
    if t.sends != [] {
      assert all[|all| - 1] == t.sends[|t.sends| - 1];
    }
  }

  /** What was held and all charges cost at most the budget and the over-report of one of the responses. */
  predicate OverspendsOnce(budget: real, price: real, plans: seq<Plan>, held: int, sends: seq<Send>, over: nat) {
    && (sends != [] ==> Cost(held + ChargesOf(plans, sends), price) <= budget + Cost(over, price))
    && (over > 0 ==> exists i :: 0 <= i < |sends| && over == OverReport(plans, sends[i]))
  }

  /**
   Any number of runs of one experiment with one budget and price, each of which may die anywhere: what
   the ledgers held at first and all charges of all runs cost at most the budget and the over-report of
   a single response.
   */
  method RunExperiment(collector: Collector, groups: seq<Group>, budget: real, price: real, runs: seq<Args>)
    returns (ghost sends: seq<Send>, ghost over: nat)
    requires collector.Valid() && price > 0.0
    requires forall i :: 0 <= i < |runs| ==> runs[i].budget == budget && runs[i].price == price
    modifies collector
    ensures collector.Valid() && |collector.sent| == |old(collector.sent)| + |sends|
    ensures var plans := PlansOf(groups);
            var held := HeldBefore(old(collector.rows), old(collector.intents), Table(groups, |groups|));
            OverspendsOnce(budget, price, plans, held, sends, over)
  {
    ghost var plans, planned := PlansOf(groups), Table(groups, |groups|);
    ghost var held := HeldBefore(collector.rows, collector.intents, planned);
    sends, over := [], 0;
    for k := 0 to |runs|
      invariant collector.Valid() && |collector.sent| == |old(collector.sent)| + |sends|
      invariant Paid(Affordable(budget, price), plans, planned, held, collector.rows, collector.intents, sends, over)
    {
      sends, over := RunOnce(collector, groups, runs[k], held, sends, over);
    }
    PaidIsBounded(Args(true, budget, price, true, false, true), plans, planned, held, collector.rows,
                  collector.intents, sends, over);
  }

  lemma {:induction false} PaidIsBounded(args: Args, plans: seq<Plan>, planned: Planned, held: int,
                                         rows: File<Row>, intents: File<Intent>, sends: seq<Send>, over: nat)
    requires args.price > 0.0 && Paid(Capacity(args), plans, planned, held, rows, intents, sends, over)
    ensures OverspendsOnce(args.budget, args.price, plans, held, sends, over)
  {
    var charged := held + ChargesOf(plans, sends);
    BudgetIsCapacity(args, charged - over);
    CostAdds(charged - over, over, args.price);
  }

  method RunOnce(collector: Collector, groups: seq<Group>, args: Args, ghost held: int, ghost sends: seq<Send>,
                 ghost over: nat)
    returns (ghost all: seq<Send>, ghost next: nat)
    requires collector.Valid() && args.price > 0.0
    requires Paid(Capacity(args), PlansOf(groups), Table(groups, |groups|), held, collector.rows,
                  collector.intents, sends, over)
    modifies collector
    ensures collector.Valid() && |collector.sent| + |sends| == |old(collector.sent)| + |all|
    ensures Paid(Capacity(args), PlansOf(groups), Table(groups, |groups|), held, collector.rows,
                 collector.intents, all, next)
  {
    ghost var rows0, intents0 := collector.rows, collector.intents;
    var exit, stop, t, plans, planned, resume := collector.Run(args, groups, false);
    all, next := sends, over;
    if !Refused(stop) {
      next := OneMoreRun(Capacity(args), plans, planned, held, sends, over, rows0, intents0,
                         collector.rows, collector.intents, resume, t, stop);
      all := sends + t.sends;
    }
  }
}
