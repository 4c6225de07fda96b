/**
 What one activation captures from systemctl and writes into its manifest
 (scripts/gb10_embedding_activation_checks.py and _prepare_transaction of
 scripts/gb10_embedding_activation.py), and how many bytes of JSON that becomes. Each of the four
 answers is bounded where it is read, the manifest only where it is read back.
 */
module ManifestLength {
  import opened Foundations

  /** What read_nofollow reads of a transaction's file at most. */
  const READ_LIMIT: nat := 1024 * 1024

  /** What _parse_exact_fields takes of an answer at most. */
  const ANSWER_LIMIT: nat := 128 * 1024

  // ----- text -----

  function Width(c: char): nat {
    if c < '\U{80}' then 1 else if c < '\U{800}' then 2 else if c < '\U{10000}' then 3 else 4
  }

  /** The bytes json.dumps writes for one character; it keeps to ASCII. */
  function Escape(c: char): nat {
    if c == '"' || c == '\\' || c == '\t' || c == '\n' || c == '\r' || c == '\U{8}' || c == '\U{c}' then 2
    else if ' ' <= c <= '~' then 1
    else if c < '\U{10000}' then 6
    else 12
  }

  function Total(weigh: char -> nat, text: string): nat {
    if text == "" then 0 else weigh(text[0]) + Total(weigh, text[1..])
  }

  lemma {:induction false} EscapesAtMostSix(text: string)
    ensures Total(Escape, text) <= 6 * Total(Width, text)
  {
    if text != "" {
      EscapesAtMostSix(text[1..]);
    }
  }

  function Repeat(c: char, n: nat): (text: string)
    ensures |text| == n && forall d :: d in text ==> d == c
  {
    if n == 0 then "" else [c] + Repeat(c, n - 1)
  }

  lemma {:induction false} RepeatWeighs(weigh: char -> nat, c: char, n: nat)
    ensures Total(weigh, Repeat(c, n)) == n * weigh(c)
  {
    if n > 0 {
      assert Repeat(c, n)[1..] == Repeat(c, n - 1);
      RepeatWeighs(weigh, c, n - 1);
    }
  }

  /** Printable, and written by json.dumps as it is. */
  predicate Ordinary(c: char) {
    ' ' <= c <= '~' && c != '"' && c != '\\'
  }

  predicate Plain(text: string) {
    forall c :: c in text ==> Ordinary(c)
  }

  lemma {:induction false} PlainWeighs(text: string)
    requires Plain(text)
    ensures Total(Escape, text) == Total(Width, text)
  {
    if text != "" {
      assert text[0] in text && forall c :: c in text[1..] ==> c in text;
      PlainWeighs(text[1..]);
    }
  }

  // ----- one answer: _parse_exact_fields -----

  /** The properties that systemctl is asked for; Started is ExecMainStartTimestampMonotonic. */
  datatype Property =
    LoadState | ActiveState | SubState | FragmentPath | MainPID | NRestarts | ControlGroup | InvocationID | Started

  const GENERATION_FIELDS: set<Property> :=
    {LoadState, ActiveState, SubState, FragmentPath, MainPID, ControlGroup, InvocationID, Started}

  const NEIGHBOR_FIELDS: set<Property> :=
    {LoadState, ActiveState, SubState, MainPID, NRestarts, InvocationID, Started}

  function NameLength(p: Property): nat {
    match p
    case LoadState => 9
    case ActiveState => 11
    case SubState => 8
    case FragmentPath => 12
    case MainPID => 7
    case NRestarts => 9
    case ControlGroup => 12
    case InvocationID => 12
    case Started => 31
  }

  /** A line of an answer: a property and what follows the first equals sign, or anything else. */
  datatype Line = Field(name: Property, value: string) | Other(text: string)

  /** An answer by its lines, each of which ends with a newline. */
  type Answer = seq<Line>

  type Fields = map<Property, string>

  /** Where str.splitlines cuts. */
  predicate Breaks(c: char) {
    '\n' <= c <= '\r' || '\U{1c}' <= c <= '\U{1e}' || c == '\U{85}' || c == '\U{2028}' || c == '\U{2029}'
  }

  function LineWidth(line: Line): nat {
    match line
    case Field(name, value) => NameLength(name) + Total(Width, value) + 2
    case Other(text) => Total(Width, text) + 1
  }

  function AnswerWidth(answer: Answer, n: nat): nat
    requires n <= |answer|
  {
    if n == 0 then 0 else AnswerWidth(answer, n - 1) + LineWidth(answer[n - 1])
  }

  function TextOf(line: Line): string {
    match line
    case Field(_, value) => value
    case Other(text) => text
  }

  predicate Short(answer: Answer) {
    && AnswerWidth(answer, |answer|) <= ANSWER_LIMIT
    && forall i :: 0 <= i < |answer| ==> '\U{0}' !in TextOf(answer[i])
  }

  /** The first n lines are expected fields, none of them twice. */
  predicate LinesFit(answer: Answer, n: nat, expected: set<Property>)
    requires n <= |answer|
  {
    && (forall i :: 0 <= i < n ==> answer[i].Field? && answer[i].name in expected)
    && (forall i, j :: 0 <= i < j < n ==> answer[i].name != answer[j].name)
  }

  predicate HasKey(answer: Answer, n: nat, name: Property)
    requires n <= |answer|
  {
    exists i :: 0 <= i < n && answer[i].Field? && answer[i].name == name
  }

  function Table(answer: Answer, n: nat): Fields
    requires n <= |answer|
  {
    if n == 0 then map[]
    else match answer[n - 1]
      case Field(name, value) => Table(answer, n - 1)[name := value]
      case Other(_) => Table(answer, n - 1)
  }

  /** The fields of an answer that is taken: short, exactly the expected ones, each once. */
  function Parse(answer: Answer, expected: set<Property>): Option<Fields> {
    if Short(answer) && LinesFit(answer, |answer|, expected)
       && (forall name :: name in expected ==> HasKey(answer, |answer|, name))
    then Some(Table(answer, |answer|)) else None
  }

  lemma {:induction false} TableKeys(answer: Answer, n: nat, name: Property)
    requires n <= |answer|
    ensures name in Table(answer, n) <==> HasKey(answer, n, name)
  {
    if n > 0 {
      TableKeys(answer, n - 1, name);
    }
  }

  lemma {:induction false} TableHolds(answer: Answer, n: nat, i: nat, expected: set<Property>)
    requires i < n <= |answer| && LinesFit(answer, n, expected)
    ensures answer[i].name in Table(answer, n) && Table(answer, n)[answer[i].name] == answer[i].value
  {
    if i < n - 1 {
      TableHolds(answer, n - 1, i, expected);
    }
  }

  method ParseExactFields(answer: Answer, expected: set<Property>) returns (fields: Option<Fields>)
    ensures fields == Parse(answer, expected)
  {
    if !Short(answer) {
      return None;
    }
    var result: Fields := map[];
    for n := 0 to |answer|
      invariant LinesFit(answer, n, expected) && result == Table(answer, n)
    {
      var line := answer[n];
      if line.Other? || line.name !in expected {
        return None;
      }
      TableKeys(answer, n, line.name);
      if line.name in result {
        return None;
      }
      result := result[line.name := line.value];
    }
    forall name ensures name in result <==> HasKey(answer, |answer|, name) {
      TableKeys(answer, |answer|, name);
    }
    fields := if forall name :: name in expected ==> name in result then Some(result) else None;
  }

  // ----- what the values of an answer weigh -----

  /** The escaped bytes of one field. */
  function Weight(table: Fields, name: Property): nat {
    if name in table then Total(Escape, table[name]) else 0
  }

  function TableWeight(table: Fields): nat {
    Weight(table, LoadState) + Weight(table, ActiveState) + Weight(table, SubState) + Weight(table, FragmentPath)
    + Weight(table, MainPID) + Weight(table, NRestarts) + Weight(table, ControlGroup) + Weight(table, InvocationID)
    + Weight(table, Started)
  }

  /** The escaped bytes of all values of the first n lines. */
  function Escapes(answer: Answer, n: nat): nat
    requires n <= |answer|
  {
    if n == 0 then 0 else Escapes(answer, n - 1) + Total(Escape, TextOf(answer[n - 1]))
  }

  lemma {:induction false} WeightOf(table: Fields, name: Property, value: string, other: Property)
    ensures Weight(table[name := value], other)
            == if other == name then Total(Escape, value) else Weight(table, other)
  {}

  lemma {:induction false} OneMoreField(table: Fields, name: Property, value: string)
    requires name !in table
    ensures TableWeight(table[name := value]) == TableWeight(table) + Total(Escape, value)
  {
    forall other: Property
      ensures Weight(table[name := value], other)
              == if other == name then Total(Escape, value) else Weight(table, other)
    {
      WeightOf(table, name, value, other);
    }
  }

  /** The values taken from an answer weigh just what its lines weigh. */
  lemma {:induction false} TableWeighs(answer: Answer, n: nat, expected: set<Property>)
    requires n <= |answer| && LinesFit(answer, n, expected)
    ensures TableWeight(Table(answer, n)) == Escapes(answer, n)
  {
    if n > 0 {
      TableWeighs(answer, n - 1, expected);
      TableKeys(answer, n - 1, answer[n - 1].name);
      OneMoreField(Table(answer, n - 1), answer[n - 1].name, answer[n - 1].value);
    }
  }

  // ----- query_generation and _neighbor_state -----

  /** int() of a longer text raises. */
  const MAX_DIGITS: nat := 4300

  predicate Digits(text: string) {
    forall i :: 0 <= i < |text| ==> '0' <= text[i] <= '9'
  }

  predicate Numeral(text: string) {
    text != "" && Digits(text)
  }

  function Value(digits: string): nat
    requires Digits(digits)
  {
    if digits == "" then 0
    else 10 * Value(digits[..|digits| - 1]) + (digits[|digits| - 1] as int - '0' as int)
  }

  function Decimal(n: nat): (length: nat)
    ensures length >= 1
  {
    if n < 10 then 1 else 1 + Decimal(n / 10)
  }

  /** A number is written with no more digits than it was read from. */
  lemma {:induction false} DecimalOfValue(digits: string)
    requires Numeral(digits)
    ensures Decimal(Value(digits)) <= |digits|
  {
    var front := digits[..|digits| - 1];
    if Value(digits) >= 10 {
      assert Value(digits) / 10 == Value(front) && front != "";
      DecimalOfValue(front);
    }
  }

  predicate Hex32(text: string) {
    |text| == 32 && forall c :: c in text ==> '0' <= c <= '9' || 'a' <= c <= 'f'
  }

  predicate ParentAt(path: string, i: nat) {
    i + 4 <= |path| && path[i..][..4] == "/../"
  }

  /** Empty, or absolute and without a part that is two dots. */
  predicate PathFits(path: string) {
    path == "" || (path[0] == '/' && forall i: nat :: i < |path| ==> !ParentAt(path + "/", i))
  }

  /** query_generation succeeds and the service runs; an activation refuses any other state. */
  predicate Runs(table: Fields) {
    && GENERATION_FIELDS <= table.Keys
    && table[LoadState] == "loaded" && table[ActiveState] == "active" && table[SubState] == "running"
    && IsCount(table[MainPID]) && IsCount(table[Started])
    && Hex32(table[InvocationID]) && "/" <= table[ControlGroup] && PathFits(table[FragmentPath])
  }

  predicate IsCount(text: string) {
    Numeral(text) && |text| <= MAX_DIGITS && Value(text) > 0
  }

  predicate NeighborFits(table: Fields) {
    && NEIGHBOR_FIELDS <= table.Keys
    && Numeral(table[MainPID]) && Numeral(table[NRestarts]) && Numeral(table[Started])
    && (table[InvocationID] == "" || Hex32(table[InvocationID]))
  }

  // ----- the manifest -----

  /** Device, inode, size and time of a file. */
  datatype Identity = Identity(device: int, inode: int, size: int, time: int)

  datatype Place = Place(source: string, installed: string, identity: Identity)

  datatype Authority = Authority(path: string, mode: nat, identity: Identity)

  datatype Config = Config(unit: Place, core: Place, wrapper: Place, authority: seq<Authority>)

  /** What systemctl said of the unit and of its three neighbors. */
  datatype Answers = Answers(unit: Answer, aeon: Answer, querit: Answer, qwen: Answer)

  /** The modes of the installed files, where there are any. */
  datatype Priors = Priors(unit: Option<nat>, core: Option<nat>, wrapper: Option<nat>)

  datatype Capture = Capture(config: Config, answers: Answers)

  /** One member of a JSON object, its key of so many characters, and what follows it: a comma or the brace. */
  function Member(key: nat, value: nat): nat {
    key + 4 + value
  }

  function Quoted(text: string): nat {
    2 + Total(Escape, text)
  }

  function Number(n: int): (length: nat)
    ensures length >= 1
  {
    if n < 0 then 1 + Decimal(-n) else Decimal(n)
  }

  /** A quoted SHA-256 in hexadecimal. */
  const DIGEST: nat := 66

  function IdentityLength(id: Identity): nat {
    5 + Number(id.device) + Number(id.inode) + Number(id.size) + Number(id.time)
  }

  /** present, mode, sha256 */
  function PriorLength(mode: Option<nat>): nat {
    match mode
    case Some(m) => 1 + Member(7, 4) + Member(4, Number(m)) + Member(6, DIGEST)
    case None => 1 + Member(7, 5) + Member(4, 4) + Member(6, 4)
  }

  /**
   source, installed, source_sha256, source_mode, source_identity, prior: the unit and the artifacts
   have them alike. Both source modes have three digits.
   */
  function PlaceLength(place: Place, prior: Option<nat>): nat {
    Member(6, Quoted(place.source)) + Member(9, Quoted(place.installed)) + Member(13, DIGEST) + Member(11, 3)
    + Member(15, IdentityLength(place.identity)) + Member(5, PriorLength(prior))
  }

  /** By path: identity, mode, sha256. */
  function AuthoritiesLength(authority: seq<Authority>): nat {
    if authority == [] then 0
    else
      var first := authority[0];
      Quoted(first.path) + 2
      + 1 + Member(8, IdentityLength(first.identity)) + Member(4, Number(first.mode)) + Member(6, DIGEST)
      + AuthoritiesLength(authority[1..])
  }

  /** A field as a JSON string, and as a number. */
  function QuotedField(table: Fields, name: Property): nat {
    2 + Weight(table, name)
  }

  function NumberField(table: Fields, name: Property): nat {
    if name in table && Numeral(table[name]) then Decimal(Value(table[name])) else 0
  }

  /** load, active, sub, fragment, pid, cgroup, invocation, started */
  function GenerationLength(table: Fields): nat {
    1 + Member(4, QuotedField(table, LoadState)) + Member(6, QuotedField(table, ActiveState))
    + Member(3, QuotedField(table, SubState)) + Member(8, QuotedField(table, FragmentPath))
    + Member(3, NumberField(table, MainPID)) + Member(6, QuotedField(table, ControlGroup))
    + Member(10, QuotedField(table, InvocationID)) + Member(7, NumberField(table, Started))
  }

  function NeighborField(table: Fields, name: Property): nat {
    Member(NameLength(name), QuotedField(table, name))
  }

  function NeighborLength(table: Fields): nat {
    1 + NeighborField(table, LoadState) + NeighborField(table, ActiveState) + NeighborField(table, SubState)
    + NeighborField(table, MainPID) + NeighborField(table, NRestarts) + NeighborField(table, InvocationID)
    + NeighborField(table, Started)
  }

  /** All but the answers: schema, the unit's own members, no_swap_artifacts, verifier_authority. */
  function FrameLength(config: Config, priors: Priors): nat {
    2 + Member(6, 1) + PlaceLength(config.unit, priors.unit)
    + Member(17, 1 + Member(4, 1 + PlaceLength(config.core, priors.core))
                 + Member(7, 1 + PlaceLength(config.wrapper, priors.wrapper)))
    + Member(18, 1 + AuthoritiesLength(config.authority))
  }

  datatype Parsed = Parsed(unit: Fields, aeon: Fields, querit: Fields, qwen: Fields)

  /** before, and neighbors by the names of their units. */
  function AnswersLength(parsed: Parsed): nat {
    match parsed
    case Parsed(unit, aeon, querit, qwen) =>
      Member(6, GenerationLength(unit))
      + Member(9, 1 + Member(28, NeighborLength(aeon)) + Member(31, NeighborLength(querit))
                  + Member(30, NeighborLength(qwen)))
  }

  function Generation(answer: Answer): Option<Fields> {
    match Parse(answer, GENERATION_FIELDS)
    case None => None
    case Some(table) => if Runs(table) then Some(table) else None
  }

  function Neighbor(answer: Answer): Option<Fields> {
    match Parse(answer, NEIGHBOR_FIELDS)
    case None => None
    case Some(table) => if NeighborFits(table) then Some(table) else None
  }

  function ParseAnswers(answers: Answers): Option<Parsed> {
    match (Generation(answers.unit), Neighbor(answers.aeon), Neighbor(answers.querit), Neighbor(answers.qwen))
    case (Some(unit), Some(aeon), Some(querit), Some(qwen)) => Some(Parsed(unit, aeon, querit, qwen))
    case _ => None
  }

  /** The bytes of the manifest, or None when an answer is refused. */
  function LengthOf(capture: Capture, priors: Priors): Option<nat> {
    match ParseAnswers(capture.answers)
    case None => None
    case Some(parsed) => Some(FrameLength(capture.config, priors) + AnswersLength(parsed))
  }

  // ----- how long a manifest can be -----

  function Power10(k: nat): (n: nat)
    ensures n >= 1
  {
    if k == 0 then 1 else 10 * Power10(k - 1)
  }

  lemma {:induction false} DecimalBound(n: nat, k: nat)
    requires k > 0 && n < Power10(k)
    ensures Decimal(n) <= k
  {
    assert Power10(1) == 10 * Power10(0);
    if n >= 10 {
      DecimalBound(n / 10, k - 1);
    }
  }

  /** Every number of a stat record; the time in nanoseconds is the longest. */
  predicate Stat(n: int) {
    n < Power10(29) && -n < Power10(29)
  }

  predicate StatIdentity(id: Identity) {
    Stat(id.device) && Stat(id.inode) && Stat(id.size) && Stat(id.time)
  }

  lemma {:induction false} StatBound(n: int)
    requires Stat(n)
    ensures Number(n) <= 30
  {
    DecimalBound(if n < 0 then -n else n, 29);
  }

  lemma {:induction false} IdentityBound(id: Identity)
    requires StatIdentity(id)
    ensures IdentityLength(id) <= 125
  {
    StatBound(id.device);
    StatBound(id.inode);
    StatBound(id.size);
    StatBound(id.time);
  }

  /** PATH_MAX: the system opens no longer path, with its final zero byte. */
  const PATH_MAX: nat := 4096

  predicate Openable(path: string) {
    Total(Width, path) < PATH_MAX
  }

  predicate FileMode(mode: nat) {
    mode <= 0xFFF
  }

  lemma {:induction false} ModeBound(mode: nat)
    requires FileMode(mode)
    ensures Number(mode) <= 4
  {
    assert Decimal(mode / 1000) == 1 && Decimal(mode / 100) <= 2 && Decimal(mode / 10) <= 3;
  }

  predicate RealPlace(place: Place) {
    Openable(place.source) && Openable(place.installed) && StatIdentity(place.identity)
  }

  predicate RealAuthority(authority: Authority) {
    Openable(authority.path) && FileMode(authority.mode) && StatIdentity(authority.identity)
  }

  /** production_config on files that were opened: three places and four authority files. */
  predicate Production(config: Config) {
    match config
    case Config(unit, core, wrapper, authority) =>
      && RealPlace(unit) && RealPlace(core) && RealPlace(wrapper)
      && |authority| == 4 && forall a :: a in authority ==> RealAuthority(a)
  }

  predicate RealPrior(prior: Option<nat>) {
    prior.Some? ==> FileMode(prior.value)
  }

  predicate RealPriors(priors: Priors) {
    match priors
    case Priors(unit, core, wrapper) => RealPrior(unit) && RealPrior(core) && RealPrior(wrapper)
  }

  lemma {:induction false} PathBound(path: string)
    requires Openable(path)
    ensures Quoted(path) <= 24572
  {
    EscapesAtMostSix(path);
  }

  lemma {:induction false} PlaceBound(place: Place, prior: Option<nat>)
    requires RealPlace(place) && RealPrior(prior)
    ensures 200 <= PlaceLength(place, prior) <= 50000
  {
    PathBound(place.source);
    PathBound(place.installed);
    IdentityBound(place.identity);
    if prior.Some? {
      ModeBound(prior.value);
    }
  }

  lemma {:induction false} AuthoritiesBound(authority: seq<Authority>)
    requires forall a :: a in authority ==> RealAuthority(a)
    ensures 111 * |authority| <= AuthoritiesLength(authority) <= 25000 * |authority|
  {
    if authority != [] {
      var first := authority[0];
      assert RealAuthority(first);
      PathBound(first.path);
      IdentityBound(first.identity);
      ModeBound(first.mode);
      AuthoritiesBound(authority[1..]);
    }
  }

  /** What a manifest needs besides its answers. */
  const FRAME_LIMIT: nat := 256 * 1024

  lemma {:induction false} FrameBound(config: Config, priors: Priors)
    requires Production(config) && RealPriors(priors)
    ensures 1120 <= FrameLength(config, priors) <= FRAME_LIMIT - 2000
  {
    PlaceBound(config.unit, priors.unit);
    PlaceBound(config.core, priors.core);
    PlaceBound(config.wrapper, priors.wrapper);
    AuthoritiesBound(config.authority);
  }

  lemma {:induction false} LengthWeighs(text: string)
    ensures |text| <= Total(Escape, text)
  {
    if text != "" {
      LengthWeighs(text[1..]);
    }
  }

  lemma {:induction false} NumberFieldBound(table: Fields, name: Property)
    ensures NumberField(table, name) <= Weight(table, name)
  {
    if name in table && Numeral(table[name]) {
      DecimalOfValue(table[name]);
      LengthWeighs(table[name]);
    }
  }

  lemma {:induction false} FieldsBound(table: Fields)
    ensures GenerationLength(table) <= 200 + TableWeight(table) && NeighborLength(table) <= 200 + TableWeight(table)
  {
    NumberFieldBound(table, MainPID);
    NumberFieldBound(table, Started);
  }

  lemma {:induction false} ParsedBound(answer: Answer, expected: set<Property>, table: Fields)
    requires Parse(answer, expected) == Some(table)
    ensures GenerationLength(table) <= 200 + Escapes(answer, |answer|)
    ensures NeighborLength(table) <= 200 + Escapes(answer, |answer|)
  {
    TableWeighs(answer, |answer|, expected);
    FieldsBound(table);
  }

  /** The escaped bytes of all four answers. */
  function AnswersWeigh(answers: Answers): nat {
    match answers
    case Answers(unit, aeon, querit, qwen) =>
      Escapes(unit, |unit|) + Escapes(aeon, |aeon|) + Escapes(querit, |querit|) + Escapes(qwen, |qwen|)
  }

  lemma {:induction false} AnswersBound(answers: Answers, parsed: Parsed)
    requires ParseAnswers(answers) == Some(parsed)
    ensures AnswersLength(parsed) <= 2000 + AnswersWeigh(answers)
  {
    ParsedBound(answers.unit, GENERATION_FIELDS, parsed.unit);
    ParsedBound(answers.aeon, NEIGHBOR_FIELDS, parsed.aeon);
    ParsedBound(answers.querit, NEIGHBOR_FIELDS, parsed.querit);
    ParsedBound(answers.qwen, NEIGHBOR_FIELDS, parsed.qwen);
  }

  /** A manifest is no longer than its answers with their escapes and a quarter of what may be read back. */
  lemma {:induction false} ManifestBound(capture: Capture, priors: Priors)
    requires Production(capture.config) && RealPriors(priors)
    ensures match LengthOf(capture, priors)
            case None => true
            case Some(length) => length <= FRAME_LIMIT + AnswersWeigh(capture.answers)
  {
    FrameBound(capture.config, priors);
    if ParseAnswers(capture.answers).Some? {
      AnswersBound(capture.answers, ParseAnswers(capture.answers).value);
    }
  }

  /** Printable values, without quotes and backslashes. */
  predicate PlainAnswer(answer: Answer) {
    forall i :: 0 <= i < |answer| ==> Plain(TextOf(answer[i]))
  }

  predicate AllPlain(answers: Answers) {
    match answers
    case Answers(unit, aeon, querit, qwen) =>
      PlainAnswer(unit) && PlainAnswer(aeon) && PlainAnswer(querit) && PlainAnswer(qwen)
  }

  lemma {:induction false} PlainAnswerWeighs(answer: Answer, n: nat)
    requires n <= |answer| && PlainAnswer(answer)
    ensures Escapes(answer, n) <= AnswerWidth(answer, n)
  {
    if n > 0 {
      PlainAnswerWeighs(answer, n - 1);
      PlainWeighs(TextOf(answer[n - 1]));
    }
  }

  lemma {:induction false} AllPlainWeigh(answers: Answers)
    requires AllPlain(answers)
    ensures ParseAnswers(answers).Some? ==> AnswersWeigh(answers) <= 4 * ANSWER_LIMIT
  {
    PlainAnswerWeighs(answers.unit, |answers.unit|);
    PlainAnswerWeighs(answers.aeon, |answers.aeon|);
    PlainAnswerWeighs(answers.querit, |answers.querit|);
    PlainAnswerWeighs(answers.qwen, |answers.qwen|);
  }

  /** Production, and plain answers. */
  predicate PlainCapture(capture: Capture) {
    match capture
    case Capture(config, answers) => Production(config) && AllPlain(answers)
  }

  /** The manifest is written, and can be read back. */
  predicate Fits(length: Option<nat>) {
    match length
    case None => false
    case Some(n) => n <= READ_LIMIT
  }

  /** Plain answers make a manifest that can be read back whenever they are taken. */
  lemma {:induction false} PlainManifestFits(capture: Capture, priors: Priors)
    requires PlainCapture(capture) && RealPriors(priors)
    ensures Fits(LengthOf(capture, priors)) <==> ParseAnswers(capture.answers).Some?
  {
    AllPlainWeigh(capture.answers);
    ManifestBound(capture, priors);
  }

  // ----- answers that make a manifest too long -----

  /** One byte in an answer, two or six in the manifest: a quote, a backslash or a control character. */
  predicate Swells(c: char) {
    Width(c) == 1 && Escape(c) >= 2 && !Breaks(c) && c != '\U{0}'
  }

  const FILL: nat := 130900

  function UnitLines(c: char): Answer {
    [Field(LoadState, "loaded"), Field(ActiveState, "active"), Field(SubState, "running"), Field(FragmentPath, ""),
     Field(MainPID, "1"), Field(ControlGroup, ['/'] + Repeat(c, FILL)), Field(InvocationID, Repeat('0', 32)),
     Field(Started, "1")]
  }

  function NeighborLines(c: char): Answer {
    [Field(LoadState, ""), Field(ActiveState, ""), Field(SubState, Repeat(c, FILL)), Field(MainPID, "0"),
     Field(NRestarts, "0"), Field(InvocationID, ""), Field(Started, "0")]
  }

  function SwollenAnswers(c: char): Answers {
    Answers(UnitLines(c), NeighborLines(c), NeighborLines(c), NeighborLines(c))
  }

  /** What can stand in a line, one byte a character. */
  predicate Fitting(text: string) {
    forall c :: c in text ==> Width(c) == 1 && !Breaks(c) && c != '\U{0}'
  }

  lemma {:induction false} FittingWidth(text: string)
    requires Fitting(text)
    ensures Total(Width, text) == |text|
  {
    if text != "" {
      assert text[0] in text && forall c :: c in text[1..] ==> c in text;
      FittingWidth(text[1..]);
    }
  }

  predicate AllFitting(answer: Answer) {
    forall i :: 0 <= i < |answer| ==> answer[i].Field? && Fitting(answer[i].value)
  }

  /** ends[n]: where line n starts in the text. */
  lemma {:induction false} FittingAnswer(answer: Answer, ends: seq<nat>, n: nat)
    requires AllFitting(answer) && n <= |answer| && |ends| == |answer| + 1 && ends[0] == 0
    requires forall i :: 0 <= i < |answer| ==>
               ends[i + 1] == ends[i] + NameLength(answer[i].name) + |answer[i].value| + 2
    ensures AnswerWidth(answer, n) == ends[n]
  {
    if n > 0 {
      FittingAnswer(answer, ends, n - 1);
      FittingWidth(answer[n - 1].value);
    }
  }

  lemma {:induction false} StatesFit()
    ensures Fitting("loaded") && Fitting("active") && Fitting("running")
  {}

  lemma {:induction false} UnitFitting(c: char)
    requires Swells(c)
    ensures AllFitting(UnitLines(c))
  {
    StatesFit();
  }

  lemma {:induction false} UnitFits(c: char)
    requires Swells(c)
    ensures AllFitting(UnitLines(c)) && AnswerWidth(UnitLines(c), 8) == ANSWER_LIMIT
  {
    UnitFitting(c);
    UnitEnds(c);
  }

  lemma {:induction false} UnitEnds(c: char)
    requires AllFitting(UnitLines(c))
    ensures AnswerWidth(UnitLines(c), 8) == ANSWER_LIMIT
  {
    FittingAnswer(UnitLines(c), [0, 17, 36, 53, 67, 77, 130992, 131038, 131072], 8);
  }

  lemma {:induction false} NeighborFitsIn(c: char)
    requires Swells(c)
    ensures AllFitting(NeighborLines(c)) && AnswerWidth(NeighborLines(c), 7) <= ANSWER_LIMIT
  {
    FittingAnswer(NeighborLines(c), [0, 11, 24, 130934, 130944, 130956, 130970, 131004], 7);
  }

  predicate Holds(table: Fields, answer: Answer) {
    forall i :: 0 <= i < |answer| ==>
      answer[i].Field? && answer[i].name in table && table[answer[i].name] == answer[i].value
  }

  /** Every line stands where place has its property, and every expected property has a line. */
  predicate Placed(answer: Answer, expected: set<Property>, place: Property -> nat) {
    && (forall i :: 0 <= i < |answer| ==>
          answer[i].Field? && answer[i].name in expected && place(answer[i].name) == i)
    && (forall name :: name in expected ==> place(name) < |answer| && answer[place(name)].name == name)
  }

  lemma {:induction false} PlacedFits(answer: Answer, expected: set<Property>, place: Property -> nat)
    requires Placed(answer, expected, place)
    ensures LinesFit(answer, |answer|, expected) && forall name :: name in expected ==> HasKey(answer, |answer|, name)
  {
    forall i, j | 0 <= i < j < |answer| ensures answer[i].name != answer[j].name {
      assert place(answer[i].name) != place(answer[j].name);
    }
  }

  /** Fitting lines of just the expected properties, each once, are taken as they stand. */
  lemma {:induction false} FittingParses(answer: Answer, expected: set<Property>, place: Property -> nat)
    requires AllFitting(answer) && AnswerWidth(answer, |answer|) <= ANSWER_LIMIT && Placed(answer, expected, place)
    ensures Parse(answer, expected).Some? && Holds(Parse(answer, expected).value, answer)
  {
    PlacedFits(answer, expected, place);
    forall i | 0 <= i < |answer|
      ensures answer[i].name in Table(answer, |answer|) && Table(answer, |answer|)[answer[i].name] == answer[i].value
    {
      TableHolds(answer, |answer|, i, expected);
    }
  }

  function UnitPlace(name: Property): nat {
    match name
    case LoadState => 0
    case ActiveState => 1
    case SubState => 2
    case FragmentPath => 3
    case MainPID => 4
    case ControlGroup => 5
    case InvocationID => 6
    case _ => 7
  }

  function NeighborPlace(name: Property): nat {
    match name
    case LoadState => 0
    case ActiveState => 1
    case SubState => 2
    case MainPID => 3
    case NRestarts => 4
    case InvocationID => 5
    case _ => 6
  }

  lemma {:induction false} UnitPlaced(c: char)
    ensures Placed(UnitLines(c), GENERATION_FIELDS, UnitPlace)
  {}

  lemma {:induction false} NeighborPlaced(c: char)
    ensures Placed(NeighborLines(c), NEIGHBOR_FIELDS, NeighborPlace)
  {}

  lemma {:induction false} UnitParses(c: char)
    requires Swells(c)
    ensures Parse(UnitLines(c), GENERATION_FIELDS).Some?
    ensures Holds(Parse(UnitLines(c), GENERATION_FIELDS).value, UnitLines(c))
  {
    UnitFits(c);
    UnitPlaced(c);
    FittingParses(UnitLines(c), GENERATION_FIELDS, UnitPlace);
  }

  lemma {:induction false} NeighborParses(c: char)
    requires Swells(c)
    ensures Parse(NeighborLines(c), NEIGHBOR_FIELDS).Some?
    ensures Holds(Parse(NeighborLines(c), NEIGHBOR_FIELDS).value, NeighborLines(c))
  {
    NeighborFitsIn(c);
    NeighborPlaced(c);
    FittingParses(NeighborLines(c), NEIGHBOR_FIELDS, NeighborPlace);
  }

  lemma {:induction false} OneCounts()
    ensures IsCount("1") && Numeral("0")
  {
    assert Value("1") == 10 * Value("1"[..0]) + 1;
  }

  lemma {:induction false} UnitTaken(c: char) returns (table: Fields)
    requires Swells(c)
    ensures Generation(UnitLines(c)) == Some(table) && GenerationLength(table) >= 49 + FILL * Escape(c)
  {
    UnitParses(c);
    table := Parse(UnitLines(c), GENERATION_FIELDS).value;
    UnitRuns(table, c);
    UnitSwells(table, c);
  }

  lemma {:induction false} UnitRuns(table: Fields, c: char)
    requires Holds(table, UnitLines(c))
    ensures Runs(table)
  {
    var lines := UnitLines(c);
    assert table[lines[0].name] == "loaded" && table[lines[1].name] == "active" && table[lines[2].name] == "running";
    assert table[lines[3].name] == "" && table[lines[4].name] == "1" && table[lines[7].name] == "1";
    assert table[lines[5].name] == ['/'] + Repeat(c, FILL) && table[lines[6].name] == Repeat('0', 32);
    OneCounts();
  }

  lemma {:induction false} UnitSwells(table: Fields, c: char)
    requires Holds(table, UnitLines(c))
    ensures GenerationLength(table) >= 49 + FILL * Escape(c)
  {
    var line := UnitLines(c)[5];
    assert table[line.name] == line.value && line.value[1..] == Repeat(c, FILL);
    RepeatWeighs(Escape, c, FILL);
  }

  lemma {:induction false} NeighborTaken(c: char) returns (table: Fields)
    requires Swells(c)
    ensures Neighbor(NeighborLines(c)) == Some(table) && NeighborLength(table) >= 130 + FILL * Escape(c)
  {
    NeighborParses(c);
    table := Parse(NeighborLines(c), NEIGHBOR_FIELDS).value;
    NeighborRuns(table, c);
    NeighborSwells(table, c);
  }

  lemma {:induction false} NeighborRuns(table: Fields, c: char)
    requires Holds(table, NeighborLines(c))
    ensures NeighborFits(table)
  {
    var lines := NeighborLines(c);
    assert lines[0].name in table && lines[1].name in table && lines[2].name in table;
    assert table[lines[3].name] == "0" && table[lines[4].name] == "0" && table[lines[6].name] == "0";
    assert table[lines[5].name] == "";
    OneCounts();
  }

  lemma {:induction false} NeighborSwells(table: Fields, c: char)
    requires Holds(table, NeighborLines(c))
    ensures NeighborLength(table) >= 130 + FILL * Escape(c)
  {
    var line := NeighborLines(c)[2];
    assert table[line.name] == line.value;
    RepeatWeighs(Escape, c, FILL);
  }

  lemma {:induction false} SwollenTaken(c: char) returns (parsed: Parsed)
    requires Swells(c)
    ensures ParseAnswers(SwollenAnswers(c)) == Some(parsed) && AnswersLength(parsed) >= 500 + 4 * (FILL * Escape(c))
  {
    var unit := UnitTaken(c);
    var neighbor := NeighborTaken(c);
    parsed := Parsed(unit, neighbor, neighbor, neighbor);
  }

  lemma {:induction false} TooLong(capture: Capture, priors: Priors, parsed: Parsed)
    requires Production(capture.config) && RealPriors(priors) && ParseAnswers(capture.answers) == Some(parsed)
    ensures LengthOf(capture, priors).Some? && LengthOf(capture, priors).value >= 1120 + AnswersLength(parsed)
  {
    FrameBound(capture.config, priors);
  }

  /**
   Answers that systemctl can write, without a line break in a value, each short enough, and a
   manifest of them that cannot be read back.
   */
  lemma {:induction false} SwollenManifest(config: Config, priors: Priors, c: char)
    requires Production(config) && RealPriors(priors) && Swells(c)
    ensures match LengthOf(Capture(config, SwollenAnswers(c)), priors)
            case None => false
            case Some(length) => length > READ_LIMIT
    ensures AllFitting(UnitLines(c)) && AllFitting(NeighborLines(c))
  {
    UnitFits(c);
    NeighborFitsIn(c);
    var parsed := SwollenTaken(c);
    TooLong(Capture(config, SwollenAnswers(c)), priors, parsed);
  }
}
