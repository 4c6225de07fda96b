/**
 The embedding activation transaction (scripts/gb10_embedding_activation.py and
 scripts/gb10_embedding_activation_storage.py): three installed files are replaced under a durable
 transaction directory that is published by one rename and moved through a phase automaton.

 Every durable step may raise before or after its effect, and the process may die at either point;
 every external check may fail. A calm host is one on which nothing of that happens.
 */
module ActivationTransaction {
  import opened Foundations
  import opened ManifestLength

  type Mode = m: nat | m <= 0xFFF

  datatype Key = Unit | Core | Wrapper

  datatype File = File(data: Bytes, mode: Mode)

  /** Files by key; a key that is not there is an absent file. */
  type Files = map<Key, File>

  function Slot(files: Files, key: Key): Option<File> {
    if key in files then Some(files[key]) else None
  }

  function SourceMode(key: Key): Mode {
    if key == Wrapper then 0x1ED else 0x1A4
  }

  // ----- phases -----

  datatype Phase = Prepared | Installed | Reloaded | Restarted | Verified | RollingBack | RollbackFailed | Committed

  predicate Legal(from: Phase, to: Phase) {
    match from
    case Prepared => to == Installed || to == RollingBack
    case Installed => to == Reloaded || to == RollingBack
    case Reloaded => to == Restarted || to == RollingBack
    case Restarted => to == Verified || to == RollingBack
    case Verified => to == Committed || to == RollingBack
    case RollingBack => to == RollingBack || to == RollbackFailed
    case RollbackFailed => to == RollingBack || to == RollbackFailed
    case Committed => false
  }

  const COMMIT_PATH: seq<Phase> := [Prepared, Installed, Reloaded, Restarted, Verified, Committed]

  predicate IsPath(phases: seq<Phase>) {
    && phases != [] && phases[0] == Prepared
    && (forall i :: 0 <= i < |phases| - 1 ==> Legal(phases[i], phases[i + 1]))
  }

  lemma {:induction false} PathSoFar(phases: seq<Phase>, i: nat)
    requires IsPath(phases) && i < |phases|
    ensures phases[i] == RollingBack || phases[i] == RollbackFailed || (i < 6 && phases[i] == COMMIT_PATH[i])
  {
    if i > 0 {
      PathSoFar(phases, i - 1);
      assert Legal(phases[i - 1], phases[i - 1 + 1]);
    }
  }

  /** A history that reaches committed is exactly the straight one, and ends there. */
  lemma {:induction false} CommittedHistory(phases: seq<Phase>)
    requires IsPath(phases) && Committed in phases
    ensures phases == COMMIT_PATH
  {
    var k :| 0 <= k < |phases| && phases[k] == Committed;
    PathSoFar(phases, k);
    forall i | 0 <= i < |phases| - 1 ensures phases[i] != Committed {
      assert Legal(phases[i], phases[i + 1]);
    }
    assert k == 5 == |phases| - 1;
    forall i | 0 <= i < 6 ensures phases[i] == COMMIT_PATH[i] {
      StraightBefore(phases, i);
    }
  }

  lemma {:induction false} StraightBefore(phases: seq<Phase>, i: nat)
    requires IsPath(phases) && |phases| >= 6 && phases[5] == Committed && i < 6
    ensures phases[i] == COMMIT_PATH[i]
    decreases 5 - i
  {
    PathSoFar(phases, i);
    if i < 5 {
      StraightBefore(phases, i + 1);
      assert Legal(phases[i], phases[i + 1]);
    }
  }

  // ----- the log of durable effects, by transaction -----

  datatype Event =
    | Phased(id: nat, phase: Phase)
    | Wrote(id: nat, key: Key)
    | Restored(id: nat, key: Key)

  function PhasesOf(log: seq<Event>, id: nat): seq<Phase> {
    if log == [] then [] else
      var last := log[|log| - 1];
      PhasesOf(log[..|log| - 1], id) + (if last.Phased? && last.id == id then [last.phase] else [])
  }

  /** After a transaction is committed, nothing is ever done on its behalf again. */
  predicate Sealed(log: seq<Event>) {
    forall i, j :: 0 <= i < j < |log| && log[i].Phased? && log[i].phase == Committed ==> log[j].id != log[i].id
  }

  predicate AllPaths(log: seq<Event>, id: nat) {
    forall n :: 1 <= n <= id ==> IsPath(PhasesOf(log, n))
  }

  predicate RestoresInRollbacks(log: seq<Event>) {
    forall i :: 0 <= i < |log| && log[i].Restored? ==> RollingBack in PhasesOf(log, log[i].id)
  }

  /** id transactions so far; current is the phase of the one on disk, if there is one. */
  predicate LogSound(log: seq<Event>, id: nat, current: Option<Phase>) {
    && (forall i :: 0 <= i < |log| ==> 1 <= log[i].id <= id)
    && Sealed(log)
    && AllPaths(log, id) && RestoresInRollbacks(log)
    && (current.Some? ==> id >= 1 && PhasesOf(log, id)[|PhasesOf(log, id)| - 1] == current.value)
  }

  lemma {:induction false} PhaseIsLogged(log: seq<Event>, i: nat)
    requires i < |log| && log[i].Phased?
    ensures log[i].phase in PhasesOf(log, log[i].id)
    decreases |log|
  {
    if i < |log| - 1 {
      PhaseIsLogged(log[..|log| - 1], i);
    }
  }

  lemma {:induction false} LogGrows(log: seq<Event>, e: Event, n: nat)
    ensures PhasesOf(log + [e], n) == PhasesOf(log, n) + (if e.Phased? && e.id == n then [e.phase] else [])
  {
    assert (log + [e])[..|log|] == log;
  }

  lemma {:induction false} NoPhases(log: seq<Event>, n: nat)
    requires forall i :: 0 <= i < |log| ==> log[i].id < n
    ensures PhasesOf(log, n) == []
    decreases |log|
  {
    if log != [] {
      NoPhases(log[..|log| - 1], n);
    }
  }

  /** While the current phase is not committed, the current transaction was never committed. */
  lemma {:induction false} NotSealedYet(log: seq<Event>, id: nat, current: Phase, i: nat)
    requires LogSound(log, id, Some(current)) && current != Committed
    requires i < |log| && log[i].Phased? && log[i].phase == Committed
    ensures log[i].id != id
  {
    if log[i].id == id {
      PhaseIsLogged(log, i);
      CommittedHistory(PhasesOf(log, id));
    }
  }

  lemma {:induction false} SealKept(log: seq<Event>, id: nat, current: Phase, e: Event)
    requires LogSound(log, id, Some(current)) && current != Committed && e.id == id
    ensures Sealed(log + [e])
  {
    var more := log + [e];
    forall i, j | 0 <= i < j < |more| && more[i].Phased? && more[i].phase == Committed
      ensures more[j].id != more[i].id
    {
      if j == |log| {
        NotSealedYet(log, id, current, i);
      }
    }
  }

  lemma {:induction false} RestoresKept(log: seq<Event>, id: nat, current: Option<Phase>, e: Event, i: nat)
    requires LogSound(log, id, current) && i < |log| && log[i].Restored?
    ensures RollingBack in PhasesOf(log + [e], log[i].id)
  {
    LogGrows(log, e, log[i].id);
  }

  lemma {:induction false} LogTouched(log: seq<Event>, id: nat, current: Phase, e: Event)
    requires LogSound(log, id, Some(current)) && current != Committed && e.id == id && !e.Phased?
    requires e.Restored? ==> current == RollingBack
    ensures LogSound(log + [e], id, Some(current))
  {
    SealKept(log, id, current, e);
    forall n | 1 <= n <= id ensures IsPath(PhasesOf(log + [e], n)) {
      LogGrows(log, e, n);
    }
    LogGrows(log, e, id);
    forall i | 0 <= i < |log| && log[i].Restored? ensures RollingBack in PhasesOf(log + [e], log[i].id) {
      RestoresKept(log, id, Some(current), e, i);
    }
  }

  lemma {:induction false} LogPhased(log: seq<Event>, id: nat, current: Phase, next: Phase)
    requires LogSound(log, id, Some(current)) && Legal(current, next)
    ensures LogSound(log + [Phased(id, next)], id, Some(next))
  {
    var e := Phased(id, next);
    SealKept(log, id, current, e);
    forall n | 1 <= n <= id ensures IsPath(PhasesOf(log + [e], n)) {
      LogGrows(log, e, n);
      if n == id {
        PathExtends(PhasesOf(log, id), next);
      }
    }
    LogGrows(log, e, id);
    forall i | 0 <= i < |log| && log[i].Restored? ensures RollingBack in PhasesOf(log + [e], log[i].id) {
      RestoresKept(log, id, Some(current), e, i);
    }
  }

  lemma {:induction false} PathExtends(phases: seq<Phase>, next: Phase)
    requires IsPath(phases) && Legal(phases[|phases| - 1], next)
    ensures IsPath(phases + [next])
  {
    var more := phases + [next];
    forall i | 0 <= i < |more| - 1 ensures Legal(more[i], more[i + 1]) {
      if i < |phases| - 1 {
        assert more[i] == phases[i] && more[i + 1] == phases[i + 1];
      }
    }
  }

  lemma {:induction false} SealKeptByNew(log: seq<Event>, id: nat, e: Event)
    requires LogSound(log, id, None) && e.id == id + 1
    ensures Sealed(log + [e])
  {
    var more := log + [e];
    forall i, j | 0 <= i < j < |more| && more[i].Phased? && more[i].phase == Committed
      ensures more[j].id != more[i].id
    {
      if j == |log| {
        assert more[i].id <= id;
      }
    }
  }

  lemma {:induction false} PathOfNew(log: seq<Event>, id: nat, n: nat)
    requires LogSound(log, id, None) && 1 <= n <= id + 1
    ensures IsPath(PhasesOf(log + [Phased(id + 1, Prepared)], n))
    ensures n == id + 1 ==> PhasesOf(log + [Phased(id + 1, Prepared)], n) == [Prepared]
  {
    LogGrows(log, Phased(id + 1, Prepared), n);
    if n == id + 1 {
      NoPhases(log, n);
    }
  }

  lemma {:induction false} LogPublished(log: seq<Event>, id: nat)
    requires LogSound(log, id, None)
    ensures LogSound(log + [Phased(id + 1, Prepared)], id + 1, Some(Prepared))
  {
    var more := log + [Phased(id + 1, Prepared)];
    assert AllPaths(more, id + 1) && PhasesOf(more, id + 1) == [Prepared] by {
      PathsOfNew(log, id);
    }
    RestoresOfNew(log, id);
    SealKeptByNew(log, id, Phased(id + 1, Prepared));
  }

  lemma {:induction false} PathsOfNew(log: seq<Event>, id: nat)
    requires LogSound(log, id, None)
    ensures AllPaths(log + [Phased(id + 1, Prepared)], id + 1)
    ensures PhasesOf(log + [Phased(id + 1, Prepared)], id + 1) == [Prepared]
  {
    var more := log + [Phased(id + 1, Prepared)];
    forall n | 1 <= n <= id + 1 ensures IsPath(PhasesOf(more, n)) {
      PathOfNew(log, id, n);
    }
    PathOfNew(log, id, id + 1);
  }

  lemma {:induction false} RestoresOfNew(log: seq<Event>, id: nat)
    requires LogSound(log, id, None)
    ensures RestoresInRollbacks(log + [Phased(id + 1, Prepared)])
  {
    var e := Phased(id + 1, Prepared);
    var more := log + [e];
    forall i | 0 <= i < |more| && more[i].Restored? ensures RollingBack in PhasesOf(more, more[i].id) {
      RestoresKept(log, id, None, e, i);
    }
  }

  /**
   A transaction that ever committed went straight there, had none of its files put back before,
   and is not touched after.
   */
  lemma {:induction false} CommittedIsFinal(log: seq<Event>, id: nat, current: Option<Phase>, n: nat)
    requires LogSound(log, id, current) && 1 <= n <= id && Committed in PhasesOf(log, n)
    ensures PhasesOf(log, n) == COMMIT_PATH
    ensures forall i :: 0 <= i < |log| && log[i].id == n ==> !log[i].Restored?
    ensures n == id && current.Some? ==> current == Some(Committed)
  {
    CommittedHistory(PhasesOf(log, n));
  }

  // ----- the transaction directory -----

  datatype Name =
    | Source(key: Key) | Before(key: Key) | Baselines | SystemdBefore
    | ManifestFile | PhaseFile | CompleteFile | PendingReceipt

  /** Digests are modelled as the content they stand for. */
  datatype Receipt = Receipt(present: bool, mode: Option<Mode>, sha256: Option<Bytes>)

  datatype Manifest = Manifest(sources: map<Key, Bytes>, prior: map<Key, Receipt>)

  /** length: bytes of the manifest's JSON text. */
  datatype Content =
    | Data(bytes: Bytes)
    | PhaseText(phase: Phase)
    | ManifestText(manifest: Manifest, length: nat)
    | CompleteText(manifest: Manifest)
    | Json(document: int)

  type Directory = map<Name, Content>

  const KEYS: seq<Key> := [Unit, Core, Wrapper]

  function DataAt(dir: Directory, name: Name): Option<Bytes> {
    if name in dir && dir[name].Data? && |dir[name].bytes| <= READ_LIMIT then Some(dir[name].bytes) else None
  }

  /** _validate_prior_receipt */
  predicate PriorValid(dir: Directory, key: Key, receipt: Receipt) {
    if receipt.present
    then receipt.mode.Some? && receipt.sha256.Some? && DataAt(dir, Before(key)) == receipt.sha256
    else receipt.mode == None && receipt.sha256 == None && Before(key) !in dir
  }

  /** _load_manifest; None is any of its errors. */
  function LoadManifest(dir: Directory, validUnit: Bytes -> bool): Option<Manifest> {
    if ManifestFile !in dir || !dir[ManifestFile].ManifestText? || dir[ManifestFile].length > READ_LIMIT then None
    else
      var m := dir[ManifestFile].manifest;
      if CompleteFile !in dir || dir[CompleteFile] != CompleteText(m) then None
      else if !(forall k: Key :: k in m.sources && k in m.prior) then None
      else if !(forall k: Key :: DataAt(dir, Source(k)) == Some(m.sources[k])) then None
      else if !(forall k: Key :: PriorValid(dir, k, m.prior[k])) then None
      else if !validUnit(m.sources[Unit]) then None
      else Some(m)
  }

  /** Whatever is loaded is whole: its copies, its backups, its completeness receipt and its unit are in order. */
  lemma {:induction false} LoadedIsWhole(dir: Directory, validUnit: Bytes -> bool, m: Manifest)
    requires LoadManifest(dir, validUnit) == Some(m)
    ensures ManifestFile in dir && dir[ManifestFile].ManifestText? && dir[ManifestFile].manifest == m
    ensures dir[ManifestFile].length <= 1024 * 1024 && CompleteFile in dir && dir[CompleteFile] == CompleteText(m)
    ensures forall key: Key ::
              && key in m.sources && Source(key) in dir && dir[Source(key)] == Data(m.sources[key])
              && key in m.prior && (m.prior[key].present <==> Before(key) in dir)
              && (m.prior[key].present ==> m.prior[key].mode.Some? && dir[Before(key)].Data?
                                           && m.prior[key].sha256 == Some(dir[Before(key)].bytes))
    ensures validUnit(m.sources[Unit])
  {
    forall key: Key ensures PriorValid(dir, key, m.prior[key]) && DataAt(dir, Source(key)) == Some(m.sources[key]) {
    }
  }

  function ReadPhase(dir: Directory): Option<Phase> {
    if PhaseFile in dir && dir[PhaseFile].PhaseText? then Some(dir[PhaseFile].phase) else None
  }

  function ReceiptFor(files: Files, key: Key): Receipt {
    if key in files then Receipt(true, Some(files[key].mode), Some(files[key].data)) else Receipt(false, None, None)
  }

  function ManifestFor(prior: Files, sources: map<Key, Bytes>): Manifest {
    Manifest(sources, map k | k in KEYS :: ReceiptFor(prior, k))
  }

  predicate Sources(sources: map<Key, Bytes>) {
    forall k: Key :: k in sources && |sources[k]| <= READ_LIMIT
  }

  predicate Readable(files: Files) {
    forall k :: k in files ==> |files[k].data| <= READ_LIMIT
  }

  /** The directory holds the source of this file and the exact prior, or no prior when there was none. */
  predicate CopiesRight(dir: Directory, prior: Files, sources: map<Key, Bytes>, key: Key) {
    && key in sources && Source(key) in dir && dir[Source(key)] == Data(sources[key])
    && (if key in prior then Before(key) in dir && dir[Before(key)] == Data(prior[key].data) else Before(key) !in dir)
  }

  /** The directory holds the exact prior of every file, the sources, and the manifest of both. */
  predicate Faithful(dir: Directory, prior: Files, sources: map<Key, Bytes>, length: nat) {
    && Sources(sources) && Readable(prior)
    && (forall k: Key :: CopiesRight(dir, prior, sources, k))
    && ManifestFile in dir && dir[ManifestFile] == ManifestText(ManifestFor(prior, sources), length)
    && CompleteFile in dir && dir[CompleteFile] == CompleteText(ManifestFor(prior, sources))
    && ReadPhase(dir).Some?
  }

  /** A faithful directory passes _load_manifest, unless its manifest is too long to be read back. */
  lemma {:induction false} FaithfulLoads(dir: Directory, prior: Files, sources: map<Key, Bytes>, length: nat,
                                         validUnit: Bytes -> bool)
    requires Faithful(dir, prior, sources, length) && validUnit(sources[Unit])
    ensures LoadManifest(dir, validUnit)
            == if length <= READ_LIMIT then Some(ManifestFor(prior, sources)) else None
  {
    var m := ManifestFor(prior, sources);
    forall k: Key ensures k in m.prior && m.prior[k] == ReceiptFor(prior, k) {
      assert k in KEYS by {
        match k
        case Unit => assert KEYS[0] == k;
        case Core => assert KEYS[1] == k;
        case Wrapper => assert KEYS[2] == k;
      }
    }
    forall k: Key ensures DataAt(dir, Source(k)) == Some(m.sources[k]) && PriorValid(dir, k, m.prior[k]) {
      assert CopiesRight(dir, prior, sources, k);
    }
  }

  // ----- what the durable state always satisfies -----

  function SourceFile(sources: map<Key, Bytes>, key: Key): File
    requires key in sources
  {
    File(sources[key], SourceMode(key))
  }

  predicate AllInstalled(installed: Files, sources: map<Key, Bytes>) {
    forall k: Key :: k in sources && Slot(installed, k) == Some(SourceFile(sources, k))
  }

  /** The file is its prior or the transaction's source, nothing else. */
  predicate PriorOrSource(installed: Files, prior: Files, sources: map<Key, Bytes>, key: Key) {
    Slot(installed, key) == Slot(prior, key)
        || (key in sources && Slot(installed, key) == Some(SourceFile(sources, key)))
  }

  predicate IsForward(phase: Phase) {
    phase == Installed || phase == Reloaded || phase == Restarted || phase == Verified || phase == Committed
  }

  predicate FilesSound(phase: Phase, installed: Files, prior: Files, sources: map<Key, Bytes>, length: nat) {
    && (phase != Committed ==> forall k: Key :: PriorOrSource(installed, prior, sources, k))
    && (IsForward(phase) ==> AllInstalled(installed, sources) && length <= READ_LIMIT)
  }

  lemma {:induction false} SlotsDecide(a: Files, b: Files)
    requires forall k: Key :: Slot(a, k) == Slot(b, k)
    ensures a == b
  {
    forall k: Key ensures k in a <==> k in b {
      assert Slot(a, k) == Slot(b, k);
    }
    forall k: Key | k in a ensures a[k] == b[k] {
      assert Slot(a, k) == Slot(b, k);
    }
  }

  /**
   What only the proof remembers: every durable effect, how many transactions there were, and the
   exact prior and sources of the latest one.
   */
  datatype Story = Story(log: seq<Event>, id: nat, prior: Files, sources: map<Key, Bytes>, length: nat)

  predicate SameTransaction(before: Story, after: Story) {
    after == before.(log := after.log)
  }

  /**
   The visible transaction is complete and still holds the exact prior of all three files, each
   installed file is its prior or the source, and the log of phases and effects is sound.
   */
  predicate Sound(installed: Files, tx: Option<Directory>, story: Story, validUnit: Bytes -> bool) {
    match tx
    case None => LogSound(story.log, story.id, None)
    case Some(dir) =>
      && Faithful(dir, story.prior, story.sources, story.length) && validUnit(story.sources[Unit])
      && LogSound(story.log, story.id, ReadPhase(dir))
      && FilesSound(ReadPhase(dir).value, installed, story.prior, story.sources, story.length)
  }

  lemma {:induction false} FaithfulKept(dir: Directory, name: Name, content: Content, story: Story)
    requires Faithful(dir, story.prior, story.sources, story.length)
    requires (name == PhaseFile && content.PhaseText?) || name == PendingReceipt
    ensures Faithful(dir[name := content], story.prior, story.sources, story.length)
    ensures ReadPhase(dir[name := content]) == if name == PhaseFile then Some(content.phase) else ReadPhase(dir)
  {
    var now := dir[name := content];
    forall k: Key ensures CopiesRight(now, story.prior, story.sources, k) {
      assert CopiesRight(dir, story.prior, story.sources, k);
    }
  }

  lemma {:induction false} SoundPhased(installed: Files, dir: Directory, story: Story, validUnit: Bytes -> bool,
                                       next: Phase)
    requires Sound(installed, Some(dir), story, validUnit) && Legal(ReadPhase(dir).value, next)
    requires IsForward(next) ==> AllInstalled(installed, story.sources) && story.length <= READ_LIMIT
    ensures Sound(installed, Some(dir[PhaseFile := PhaseText(next)]),
                  story.(log := story.log + [Phased(story.id, next)]), validUnit)
    ensures ReadPhase(dir[PhaseFile := PhaseText(next)]) == Some(next)
  {
    FaithfulKept(dir, PhaseFile, PhaseText(next), story);
    LogPhased(story.log, story.id, ReadPhase(dir).value, next);
  }

  lemma {:induction false} SoundPending(installed: Files, dir: Directory, story: Story, validUnit: Bytes -> bool,
                                        receipt: Content)
    requires Sound(installed, Some(dir), story, validUnit)
    ensures Sound(installed, Some(dir[PendingReceipt := receipt]), story, validUnit)
    ensures ReadPhase(dir[PendingReceipt := receipt]) == ReadPhase(dir)
  {
    FaithfulKept(dir, PendingReceipt, receipt, story);
  }

  lemma {:induction false} FilesWritten(phase: Phase, installed: Files, story: Story, key: Key)
    requires key in story.sources && phase != Committed
    requires FilesSound(phase, installed, story.prior, story.sources, story.length)
    ensures FilesSound(phase, installed[key := SourceFile(story.sources, key)], story.prior, story.sources,
                       story.length)
  {
    var now := installed[key := SourceFile(story.sources, key)];
    forall k: Key ensures PriorOrSource(now, story.prior, story.sources, k) {
      assert PriorOrSource(installed, story.prior, story.sources, k);
    }
    if IsForward(phase) {
      forall k: Key ensures k in story.sources && Slot(now, k) == Some(SourceFile(story.sources, k)) {
        assert Slot(installed, k) == Some(SourceFile(story.sources, k));
      }
    }
  }

  lemma {:induction false} SoundWrote(installed: Files, dir: Directory, story: Story, validUnit: Bytes -> bool,
                                      key: Key)
    requires Sound(installed, Some(dir), story, validUnit) && ReadPhase(dir) != Some(Committed)
    ensures key in story.sources
    ensures Sound(installed[key := SourceFile(story.sources, key)], Some(dir),
                  story.(log := story.log + [Wrote(story.id, key)]), validUnit)
  {
    LogTouched(story.log, story.id, ReadPhase(dir).value, Wrote(story.id, key));
    FilesWritten(ReadPhase(dir).value, installed, story, key);
  }

  /** One file put back: its prior bytes and mode, or its absence. */
  function PutBack(installed: Files, prior: Files, key: Key): (now: Files)
    ensures Slot(now, key) == Slot(prior, key)
    ensures forall k: Key :: k != key ==> Slot(now, k) == Slot(installed, k)
  {
    if key in prior then installed[key := prior[key]] else installed - {key}
  }

  lemma {:induction false} AllPutBack(installed: Files, prior: Files)
    ensures PutBack(PutBack(PutBack(installed, prior, Unit), prior, Core), prior, Wrapper) == prior
  {
    SlotsDecide(PutBack(PutBack(PutBack(installed, prior, Unit), prior, Core), prior, Wrapper), prior);
  }

  lemma {:induction false} SoundRestored(installed: Files, dir: Directory, story: Story, validUnit: Bytes -> bool,
                                         key: Key)
    requires Sound(installed, Some(dir), story, validUnit) && ReadPhase(dir) == Some(RollingBack)
    ensures Sound(PutBack(installed, story.prior, key), Some(dir),
                  story.(log := story.log + [Restored(story.id, key)]), validUnit)
  {
    LogTouched(story.log, story.id, RollingBack, Restored(story.id, key));
    var now := PutBack(installed, story.prior, key);
    forall k: Key ensures PriorOrSource(now, story.prior, story.sources, k) {
      assert PriorOrSource(installed, story.prior, story.sources, k);
    }
  }

  lemma {:induction false} SoundGone(installed: Files, dir: Directory, story: Story, validUnit: Bytes -> bool)
    requires Sound(installed, Some(dir), story, validUnit)
    ensures Sound(installed, None, story, validUnit)
  {}

  lemma {:induction false} SoundPublished(installed: Files, dir: Directory, story: Story, validUnit: Bytes -> bool,
                                          sources: map<Key, Bytes>, length: nat)
    requires Sound(installed, None, story, validUnit)
    requires Faithful(dir, installed, sources, length) && ReadPhase(dir) == Some(Prepared) && validUnit(sources[Unit])
    ensures Sound(installed, Some(dir), Next(installed, story, sources, length), validUnit)
  {
    LogPublished(story.log, story.id);
    var next := Next(installed, story, sources, length);
    assert LogSound(next.log, next.id, Some(Prepared));
  }

  lemma {:induction false} PriorReceipt(prior: Files, sources: map<Key, Bytes>, key: Key)
    ensures key in ManifestFor(prior, sources).prior
    ensures ManifestFor(prior, sources).prior[key] == ReceiptFor(prior, key)
  {
    assert key in KEYS by {
      match key
      case Unit => assert KEYS[0] == key;
      case Core => assert KEYS[1] == key;
      case Wrapper => assert KEYS[2] == key;
    }
  }

  // ----- what _persist_transaction stages -----

  /** The copies of one file: its source and, when it is there, its prior. */
  function Copies(dir: Directory, prior: Files, sources: map<Key, Bytes>, key: Key): Directory
    requires key in sources
  {
    (if key in prior then dir[Before(key) := Data(prior[key].data)] else dir)[Source(key) := Data(sources[key])]
  }

  function AllCopies(prior: Files, sources: map<Key, Bytes>): Directory
    requires Sources(sources)
  {
    Copies(Copies(Copies(map[], prior, sources, Unit), prior, sources, Core), prior, sources, Wrapper)
  }

  /** The remaining files, the completeness receipt last. */
  function Labelled(copies: Directory, m: Manifest, length: nat): Directory {
    copies[Baselines := Json(0)][SystemdBefore := Json(1)]
      [ManifestFile := ManifestText(m, length)][PhaseFile := PhaseText(Prepared)][CompleteFile := CompleteText(m)]
  }

  function Staged(prior: Files, sources: map<Key, Bytes>, length: nat): Directory
    requires Sources(sources)
  {
    Labelled(AllCopies(prior, sources), ManifestFor(prior, sources), length)
  }

  lemma {:induction false} LabelledIsFaithful(copies: Directory, prior: Files, sources: map<Key, Bytes>, length: nat)
    requires Sources(sources) && Readable(prior) && forall key: Key :: CopiesRight(copies, prior, sources, key)
    ensures Faithful(Labelled(copies, ManifestFor(prior, sources), length), prior, sources, length)
    ensures ReadPhase(Labelled(copies, ManifestFor(prior, sources), length)) == Some(Prepared)
  {
    var dir := Labelled(copies, ManifestFor(prior, sources), length);
    forall key: Key ensures CopiesRight(dir, prior, sources, key) {
      assert CopiesRight(copies, prior, sources, key);
    }
  }

  lemma {:induction false} StagedIsFaithful(prior: Files, sources: map<Key, Bytes>, length: nat)
    requires Sources(sources) && Readable(prior)
    ensures Faithful(Staged(prior, sources, length), prior, sources, length)
    ensures ReadPhase(Staged(prior, sources, length)) == Some(Prepared)
  {
    forall key: Key ensures CopiesRight(AllCopies(prior, sources), prior, sources, key) {
      match key
      case Unit =>
      case Core =>
      case Wrapper =>
    }
    LabelledIsFaithful(AllCopies(prior, sources), prior, sources, length);
  }

  /** The story once these sources are published. */
  function Next(installed: Files, story: Story, sources: map<Key, Bytes>, length: nat): Story {
    Story(story.log + [Phased(story.id + 1, Prepared)], story.id + 1, installed, sources, length)
  }

  lemma {:induction false} PublishedWell(installed: Files, story: Story, validUnit: Bytes -> bool,
                                         sources: map<Key, Bytes>, length: nat)
    requires Sound(installed, None, story, validUnit)
    requires Sources(sources) && validUnit(sources[Unit]) && Readable(installed)
    ensures Sound(installed, Some(Staged(installed, sources, length)), Next(installed, story, sources, length),
                  validUnit)
    ensures ReadPhase(Staged(installed, sources, length)) == Some(Prepared)
            && PendingReceipt !in Staged(installed, sources, length)
    ensures LoadManifest(Staged(installed, sources, length), validUnit).Some? <==> length <= READ_LIMIT
  {
    StagedIsFaithful(installed, sources, length);
    SoundPublished(installed, Staged(installed, sources, length), story, validUnit, sources, length);
    FaithfulLoads(Staged(installed, sources, length), installed, sources, length, validUnit);
    assert PendingReceipt !in AllCopies(installed, sources);
  }

  /** The three files of an activation. */
  function SourceFiles(sources: map<Key, Bytes>): Files
    requires Sources(sources)
  {
    map[Unit := SourceFile(sources, Unit), Core := SourceFile(sources, Core), Wrapper := SourceFile(sources, Wrapper)]
  }

  /** The source of each file with its mode: 0o644 for unit and core, 0o755 for the wrapper. */
  lemma {:induction false} SourceFilesAre(sources: map<Key, Bytes>)
    requires Sources(sources)
    ensures SourceFiles(sources)
            == map[Unit := File(sources[Unit], 420), Core := File(sources[Core], 420),
                   Wrapper := File(sources[Wrapper], 493)]
  {}

  /** How long the manifest over these prior files gets, or None when what was captured is refused. */
  type Measure = Files -> Option<nat>

  function ModeOf(files: Files, key: Key): Option<nat> {
    if key in files then Some(files[key].mode) else None
  }

  function PriorsOf(files: Files): Priors {
    Priors(ModeOf(files, Unit), ModeOf(files, Core), ModeOf(files, Wrapper))
  }

  lemma {:induction false} PriorsAreReal(files: Files)
    ensures RealPriors(PriorsOf(files))
  {}

  function MeasureOf(capture: Capture): Measure {
    files => LengthOf(capture, PriorsOf(files))
  }

  /** Inputs that _prepare_transaction does not refuse before it publishes. */
  predicate Preparable(installed: Files, sources: map<Key, Bytes>, measure: Measure, validUnit: Bytes -> bool) {
    Sources(sources) && Readable(installed) && validUnit(sources[Unit]) && measure(installed).Some?
  }

  /** Those of them whose manifest can be read back. */
  predicate Acceptable(installed: Files, sources: map<Key, Bytes>, measure: Measure, validUnit: Bytes -> bool) {
    Sources(sources) && Readable(installed) && validUnit(sources[Unit]) && Fits(measure(installed))
  }

  function Pending(dir: Directory): Option<Content> {
    if PendingReceipt in dir then Some(dir[PendingReceipt]) else None
  }

  /** The pending receipt of a transaction differs from the public one. */
  predicate Conflict(pending: Option<Content>, public: Option<Content>) {
    pending.Some? && public.Some? && pending != public
  }

  /** How far an activation got: its flag, how its body ended, and how the handler's look at the phase ended. */
  datatype Report = Report(flag: bool, body: Outcome, reread: Outcome)

  /** The flag was set, and nothing was raised after it or the handler saw the committed phase. */
  predicate Reported(report: Report) {
    report.flag && (report.body == Ok || (report.body == Raised && report.reread == Ok))
  }

  datatype RollbackResult = Dead | Finished(success: bool)

  /** A fallible step without durable effect: an external check, a read, a barrier. */
  method Check(calm: bool) returns (outcome: Outcome)
    ensures calm ==> outcome == Ok
  {
    var fine: bool, died: bool := *, *;
    outcome := if calm || fine then Ok else if died then Died else Raised;
  }

  class Host {
    const validUnit: Bytes -> bool
    var installed: Files
    var tx: Option<Directory>
    var staging: Option<Directory>
    var tombstone: bool
    var publicActivation: Option<Content>
    var publicRollback: bool
    ghost var story: Story

    /** The durable phase of the visible transaction. */
    ghost function Current(): Option<Phase>
      reads this`tx
    {
      if tx.Some? then ReadPhase(tx.value) else None
    }

    ghost predicate Uncommitted()
      reads this`tx
    {
      tx.Some? && ReadPhase(tx.value) != Some(Committed)
    }

    ghost predicate Valid()
      reads this`installed, this`tx, this`story
    {
      Sound(installed, tx, story, validUnit)
    }

    /** The files as they stand once a pending rollback is done. */
    ghost function Settled(): Files
      reads this`installed, this`tx, this`story
    {
      if Uncommitted() then story.prior else installed
    }

    /** The manifest can be read back, and the receipts do not conflict. */
    ghost predicate Clear()
      reads this`tx, this`publicActivation, this`story
    {
      tx.Some? && story.length <= READ_LIMIT && !Conflict(Pending(tx.value), publicActivation)
    }

    constructor (validUnit: Bytes -> bool, installed: Files)
      ensures Valid() && this.validUnit == validUnit && this.installed == installed
      ensures tx == None && story.id == 0 && story.log == []
    {
      this.validUnit, this.installed := validUnit, installed;
      tx, staging, tombstone, publicActivation, publicRollback := None, None, false, None, false;
      story := Story([], 0, map[], map[], 0);
    }

    /** _set_phase: an atomic replacement of the phase file, refused for an illegal transition. */
    method SetPhase(next: Phase, calm: bool) returns (outcome: Outcome)
      requires Valid() && tx.Some?
      requires IsForward(next) ==> AllInstalled(installed, story.sources) && story.length <= READ_LIMIT
      modifies this`tx, this`story
      ensures Valid() && tx.Some? && SameTransaction(old(story), story)
      ensures !Legal(ReadPhase(old(tx).value).value, next) ==> outcome == Raised && tx == old(tx)
      ensures tx == old(tx) || tx == Some(old(tx).value[PhaseFile := PhaseText(next)])
      ensures outcome == Ok ==> tx == Some(old(tx).value[PhaseFile := PhaseText(next)])
      ensures calm && Legal(ReadPhase(old(tx).value).value, next) ==> outcome == Ok
    {
      var previous := ReadPhase(tx.value);
      if previous.None? || !Legal(previous.value, next) {
        return Raised;
      }
      :- Check(calm);
      SoundPhased(installed, tx.value, story, validUnit, next);
      tx := Some(tx.value[PhaseFile := PhaseText(next)]);
      story := story.(log := story.log + [Phased(story.id, next)]);
      outcome := Check(calm);
    }

    /** atomic_write of a source copy over one installed file. */
    method InstallFile(key: Key, data: Bytes, calm: bool) returns (outcome: Outcome)
      requires Valid() && Uncommitted() && key in story.sources && data == story.sources[key]
      modifies this`installed, this`story
      ensures Valid() && SameTransaction(old(story), story)
      ensures installed == old(installed) || installed == old(installed)[key := File(data, SourceMode(key))]
      ensures outcome == Ok ==> installed == old(installed)[key := File(data, SourceMode(key))]
      ensures calm ==> outcome == Ok
    {
      outcome := Ok;
      :- Check(calm);
      SoundWrote(installed, tx.value, story, validUnit, key);
      installed := installed[key := File(data, SourceMode(key))];
      story := story.(log := story.log + [Wrote(story.id, key)]);
      outcome := Check(calm);
    }

    /** The restore step for one file: exact bytes and mode, or exact absence. */
    method RestoreFile(key: Key, m: Manifest, calm: bool) returns (outcome: Outcome)
      requires Valid() && Current() == Some(RollingBack) && m == ManifestFor(story.prior, story.sources)
      modifies this`installed, this`story
      ensures Valid() && SameTransaction(old(story), story)
      ensures installed == old(installed) || installed == PutBack(old(installed), story.prior, key)
      ensures outcome == Ok ==> installed == PutBack(old(installed), story.prior, key)
      ensures calm ==> outcome == Ok
    {
      PriorReceipt(story.prior, story.sources, key);
      assert CopiesRight(tx.value, story.prior, story.sources, key);
      var receipt := m.prior[key];
      var backup := DataAt(tx.value, Before(key));
      if receipt.present && (backup.None? || backup != receipt.sha256) {
        return Raised;
      }
      if receipt.present || key in installed {
        SoundRestored(installed, tx.value, story, validUnit, key);
        :- Check(calm);
        installed := if receipt.present then installed[key := File(backup.value, receipt.mode.value)]
                     else installed - {key};
        story := story.(log := story.log + [Restored(story.id, key)]);
      }
      outcome := Check(calm);
    }

    /** _cleanup_transaction: the directory disappears by one rename; the tombstone is removed after. */
    method CleanupTransaction(calm: bool) returns (outcome: Outcome)
      requires Valid() && tx.Some?
      modifies this`tx, this`tombstone
      ensures Valid() && (tx == old(tx) || tx == None)
      ensures outcome == Ok ==> tx == None && !tombstone
      ensures old(tombstone) ==> outcome == Raised && tx == old(tx)
      ensures calm && !old(tombstone) ==> outcome == Ok
    {
      if tombstone {
        return Raised;
      }
      :- Check(calm);
      SoundGone(installed, tx.value, story, validUnit);
      tx, tombstone := None, true;
      :- Check(calm);
      tombstone := false;
      outcome := Check(calm);
    }

    // ----- preparation -----

    /** atomic_write with replace=False into the private staging directory. */
    method Stage(name: Name, content: Content, calm: bool) returns (outcome: Outcome)
      requires staging.Some?
      modifies this`staging
      ensures staging.Some?
      ensures outcome == Ok ==> staging.value == old(staging).value[name := content]
      ensures name in old(staging).value ==> outcome == Raised
      ensures calm && name !in old(staging).value ==> outcome == Ok
    {
      if name in staging.value {
        return Raised;
      }
      :- Check(calm);
      staging := Some(staging.value[name := content]);
      outcome := Check(calm);
    }

    method StageCopies(key: Key, given: map<Key, Bytes>, calm: bool) returns (outcome: Outcome)
      requires staging.Some? && key in given
      modifies this`staging
      ensures staging.Some?
      ensures outcome == Ok ==> staging.value == Copies(old(staging).value, installed, given, key)
      ensures calm && Source(key) !in old(staging).value && Before(key) !in old(staging).value ==> outcome == Ok
    {
      outcome := Ok;
      if key == Unit {
        outcome := Stage(Source(key), Data(given[key]), calm);
      }
      if outcome == Ok && key in installed {
        outcome := Stage(Before(key), Data(installed[key].data), calm);
      }
      if outcome == Ok && key != Unit {
        outcome := Stage(Source(key), Data(given[key]), calm);
      }
    }

    method StageLabels(m: Manifest, length: nat, calm: bool) returns (outcome: Outcome)
      requires staging.Some?
      modifies this`staging
      ensures staging.Some?
      ensures outcome == Ok ==> staging.value == Labelled(old(staging).value, m, length)
      ensures calm && (forall name :: name in old(staging).value ==> name.Source? || name.Before?) ==> outcome == Ok
    {
      outcome := Ok;
      :- Stage(Baselines, Json(0), calm);
      :- Stage(SystemdBefore, Json(1), calm);
      :- Stage(ManifestFile, ManifestText(m, length), calm);
      :- Stage(PhaseFile, PhaseText(Prepared), calm);
      :- Stage(CompleteFile, CompleteText(m), calm);
      return Ok;
    }

    method StageAll(given: map<Key, Bytes>, length: nat, calm: bool) returns (outcome: Outcome)
      requires Sources(given) && staging == Some(map[])
      modifies this`staging
      ensures staging.Some?
      ensures outcome == Ok ==> staging.value == Staged(installed, given, length)
      ensures calm ==> outcome == Ok
    {
      outcome := Ok;
      :- StageCopies(Unit, given, calm);
      :- StageCopies(Core, given, calm);
      :- StageCopies(Wrapper, given, calm);
      outcome := StageLabels(ManifestFor(installed, given), length, calm);
    }

    /** The rename that makes the staged directory the visible transaction, and the load that follows it. */
    method Publish(given: map<Key, Bytes>, length: nat, calm: bool) returns (outcome: Outcome)
      requires Valid() && tx == None && Sources(given) && validUnit(given[Unit]) && Readable(installed)
      requires staging == Some(Staged(installed, given, length))
      modifies this`tx, this`staging, this`story
      ensures Valid() && tx.Some? && Freshly(given, length) && story.id == old(story).id + 1
      ensures outcome == Ok ==> length <= READ_LIMIT
      ensures calm && length <= READ_LIMIT ==> outcome == Ok
    {
      PublishedWell(installed, story, validUnit, given, length);
      tx, staging := staging, None;
      story := Next(installed, story, given, length);
      :- Check(calm);
      outcome := if LoadManifest(tx.value, validUnit).None? then Raised else Ok;
    }

    /** A transaction for these sources is visible and nothing is installed yet. */
    ghost predicate Freshly(given: map<Key, Bytes>, length: nat)
      reads this`installed, this`tx, this`story
    {
      && Current() == Some(Prepared) && PendingReceipt !in tx.value
      && story.prior == installed && story.sources == given && story.length == length
    }

    /** _prepare_transaction and _persist_transaction: snapshot, stage, publish by one rename, load back. */
    method Prepare(given: map<Key, Bytes>, measure: Measure, calm: bool) returns (outcome: Outcome)
      requires Valid() && tx == None
      modifies this`tx, this`staging, this`story
      ensures Valid()
      ensures tx == None ==> story == old(story)
      ensures tx.Some? ==> measure(installed) == Some(story.length) && Freshly(given, story.length)
      ensures tx.Some? ==> story.id == old(story).id + 1
      ensures outcome == Ok ==> tx.Some? && Acceptable(installed, given, measure, validUnit)
      ensures calm && old(staging) == None && Acceptable(installed, given, measure, validUnit) ==> outcome == Ok
      ensures calm && old(staging) == None && Preparable(installed, given, measure, validUnit) ==> tx.Some?
    {
      outcome := Ok;
      :- Check(calm);
      if !Preparable(installed, given, measure, validUnit) || staging.Some? {
        return Raised;
      }
      var length := measure(installed).value;
      staging := Some(map[]);
      outcome := StageAll(given, length, calm);
      if outcome == Raised {
        staging := None;
      }
      if outcome == Ok {
        outcome := Publish(given, length, calm);
      }
    }

    // ----- rollback -----

    /** Core and wrapper are as they were or the transaction's sources, not yet the prior ones. */
    ghost predicate HelpersKept(before: Files)
      reads this`installed, this`story
    {
      forall key: Key :: key != Unit ==>
        Slot(installed, key) == Slot(before, key)
        || (key in story.sources && Slot(installed, key) == Some(SourceFile(story.sources, key)))
    }

    /** _install_transaction_no_swap_bundle: from the transaction's own copies, both read first. */
    method ReinstallBundle(m: Manifest, calm: bool) returns (outcome: Outcome)
      requires Valid() && Uncommitted() && m == ManifestFor(story.prior, story.sources)
      modifies this`installed, this`story
      ensures Valid() && SameTransaction(old(story), story)
      ensures Slot(installed, Unit) == Slot(old(installed), Unit) && HelpersKept(old(installed))
      ensures calm ==> outcome == Ok
    {
      assert CopiesRight(tx.value, story.prior, story.sources, Core);
      assert CopiesRight(tx.value, story.prior, story.sources, Wrapper);
      var core, wrapper := DataAt(tx.value, Source(Core)), DataAt(tx.value, Source(Wrapper));
      if core != Some(m.sources[Core]) || wrapper != Some(m.sources[Wrapper]) {
        return Raised;
      }
      :- InstallFile(Core, core.value, calm);
      outcome := InstallFile(Wrapper, wrapper.value, calm);
    }

    /** The unit first, while the bundle that watches it is in place; then core and wrapper. */
    method RestoreAll(m: Manifest, calm: bool) returns (outcome: Outcome)
      requires Valid() && Current() == Some(RollingBack) && m == ManifestFor(story.prior, story.sources)
      modifies this`installed, this`story
      ensures Valid() && SameTransaction(old(story), story)
      ensures HelpersKept(old(installed)) || Slot(installed, Unit) == Slot(story.prior, Unit)
      ensures outcome == Ok ==> installed == story.prior
      ensures calm ==> outcome == Ok
    {
      outcome := Ok;
      :- Check(calm);
      :- ReinstallBundle(m, calm);
      AllPutBack(installed, story.prior);
      :- Check(calm);
      :- RestoreFile(Unit, m, calm);
      :- Check(calm);
      :- RestoreFile(Core, m, calm);
      :- RestoreFile(Wrapper, m, calm);
      outcome := Check(calm);
    }

    /** The pending receipt is withdrawn from the public place, unless another one is there. */
    method WithdrawReceipts(calm: bool) returns (outcome: Outcome)
      requires tx.Some?
      modifies this`publicActivation, this`publicRollback
      ensures publicActivation == old(publicActivation)
              || (publicActivation == None && Pending(tx.value).Some? && Pending(tx.value) == old(publicActivation))
      ensures outcome == Ok ==> publicRollback && !Conflict(Pending(tx.value), old(publicActivation))
                                && (Pending(tx.value).Some? ==> publicActivation == None)
      ensures calm && !Conflict(Pending(tx.value), old(publicActivation)) ==> outcome == Ok
    {
      var pending := Pending(tx.value);
      if pending.Some? && publicActivation.Some? {
        if pending != publicActivation {
          return Raised;
        }
        :- Check(calm);
        publicActivation := None;
      }
      :- Check(calm);
      publicRollback := true;
      outcome := Check(calm);
    }

    method BeginRollback(calm: bool) returns (outcome: Outcome)
      requires Valid() && Uncommitted()
      modifies this`tx, this`story
      ensures Valid() && SameTransaction(old(story), story) && Uncommitted()
      ensures Pending(tx.value) == Pending(old(tx).value)
      ensures outcome == Ok ==> Current() == Some(RollingBack)
      ensures calm ==> outcome == Ok
    {
      outcome := Ok;
      if ReadPhase(tx.value) != Some(RollingBack) {
        outcome := SetPhase(RollingBack, calm);
      }
    }

    /**
     What a rollback may do to the receipts: the public one is withdrawn only when it is the
     transaction's own, and no receipt changes before the exact prior is back.
     */
    ghost predicate Withdrawn(pending: Option<Content>, before: Option<Content>, rolledBack: bool)
      reads this
    {
      && (publicActivation == before || (publicActivation == None && pending == before))
      && (publicActivation != before || publicRollback != rolledBack ==> installed == story.prior)
      && (match tx
          case Some(dir) => Pending(dir) == pending
          case None => pending.Some? ==> publicActivation == None)
    }

    /** The body of _rollback_uninterrupted for a transaction that is not committed. */
    method RollbackSteps(calm: bool) returns (outcome: Outcome)
      requires Valid() && Uncommitted()
      modifies this
      ensures Valid() && SameTransaction(old(story), story)
      ensures match tx
              case Some(_) => Uncommitted() && Clear() == old(Clear()) && outcome != Ok
              case None => old(Clear()) && installed == story.prior && publicRollback
      ensures Withdrawn(Pending(old(tx).value), old(publicActivation), old(publicRollback))
      ensures calm && old(Clear()) && !old(tombstone) ==> outcome == Ok
    {
      FaithfulLoads(tx.value, story.prior, story.sources, story.length, validUnit);
      var m := LoadManifest(tx.value, validUnit);
      if m.None? {
        return Raised;
      }
      :- BeginRollback(calm);
      :- RestoreAll(m.value, calm);
      :- WithdrawReceipts(calm);
      outcome := CleanupTransaction(calm);
    }

    /** The handler of a failed rollback: the phase becomes rollback_failed, and errors are swallowed. */
    method RecordFailure() returns (died: bool)
      requires Valid()
      modifies this`tx, this`story
      ensures Valid() && SameTransaction(old(story), story)
      ensures Uncommitted() == old(Uncommitted()) && (!Uncommitted() ==> tx == old(tx) && story == old(story))
      ensures Uncommitted() ==> Pending(tx.value) == Pending(old(tx).value)
    {
      var outcome := Check(false);
      if outcome == Ok && tx.Some? && ReadPhase(tx.value) != Some(Committed)
          && ReadPhase(tx.value) != Some(RollbackFailed) {
        outcome := BeginRollback(false);
        if outcome == Ok {
          outcome := SetPhase(RollbackFailed, false);
        }
      }
      died := outcome == Died;
    }

    /**
     _rollback: whatever fails and wherever the process dies, the exact prior is kept until it is
     back in place, and success is reported only then; a committed transaction is left alone.
     */
    method Rollback(calm: bool) returns (result: RollbackResult)
      requires Valid() && tx.Some?
      modifies this
      ensures Valid() && SameTransaction(old(story), story)
      ensures !old(Uncommitted()) ==> tx == old(tx) && installed == old(installed) && story == old(story)
                                      && publicActivation == old(publicActivation)
                                         && publicRollback == old(publicRollback)
      ensures old(Uncommitted()) ==>
                match tx
                case Some(_) => Uncommitted() && Clear() == old(Clear()) && result != Finished(true)
                case None => old(Clear()) && installed == old(story).prior && publicRollback
      ensures old(Uncommitted()) ==> Withdrawn(Pending(old(tx).value), old(publicActivation), old(publicRollback))
      ensures calm && old(Uncommitted()) && old(Clear()) && !old(tombstone) ==> result == Finished(true)
      ensures calm && !old(Uncommitted()) ==> result == Finished(true)
    {
      FaithfulLoads(tx.value, story.prior, story.sources, story.length, validUnit);
      var outcome := Check(calm);
      if outcome == Ok {
        if LoadManifest(tx.value, validUnit).Some? && ReadPhase(tx.value) == Some(Committed) {
          return Finished(true);
        }
        outcome := RollbackSteps(calm);
      }
      if outcome == Ok {
        return Finished(true);
      }
      result := Dead;
      if outcome == Raised {
        var died := RecordFailure();
        if !died {
          result := Finished(false);
        }
      }
    }

    // ----- activation -----

    /** Either the rollback is still to do, with the same prior and the same prospects, or it is done. */
    ghost predicate Undone(wasClear: bool)
      reads this
    {
      match tx
      case Some(_) => Uncommitted() && Clear() == wasClear
      case None => wasClear && installed == story.prior
    }

    /** The visible transaction is committed and its three sources are what is installed. */
    ghost predicate Activated(given: map<Key, Bytes>)
      reads this`installed, this`tx, this`story
    {
      Current() == Some(Committed) && story.sources == given && Sources(given) && installed == SourceFiles(given)
    }

    /** Activated by a transaction begun after the first id ones. */
    ghost predicate Done(given: map<Key, Bytes>, id: nat)
      reads this`installed, this`tx, this`story
    {
      story.id == id + 1 && Activated(given)
    }

    lemma {:induction false} CommittedIsActivated()
      requires Valid() && Current() == Some(Committed)
      ensures Activated(story.sources)
    {
      forall k: Key ensures Slot(installed, k) == Slot(SourceFiles(story.sources), k) {
        match k
        case Unit =>
        case Core =>
        case Wrapper =>
      }
      SlotsDecide(installed, SourceFiles(story.sources));
    }

    /** A canonical source is read again; bytes other than the manifest's are refused. */
    method InstallSource(key: Key, given: map<Key, Bytes>, calm: bool) returns (outcome: Outcome)
      requires Valid() && Uncommitted() && given == story.sources && key in given
      modifies this`installed, this`story
      ensures Valid() && SameTransaction(old(story), story)
      ensures installed == old(installed) || installed == old(installed)[key := SourceFile(given, key)]
      ensures outcome == Ok ==> installed == old(installed)[key := SourceFile(given, key)]
      ensures calm ==> outcome == Ok
    {
      var drifted: Bytes := *;
      var data := if calm then given[key] else drifted;
      if data != given[key] {
        return Raised;
      }
      :- InstallFile(key, data, calm);
      outcome := Check(calm);
    }

    /** Core and wrapper are these sources. */
    ghost predicate HelpersIn(given: map<Key, Bytes>)
      requires Sources(given)
      reads this`installed
    {
      && Slot(installed, Core) == Some(SourceFile(given, Core))
      && Slot(installed, Wrapper) == Some(SourceFile(given, Wrapper))
    }

    method InstallHelpers(given: map<Key, Bytes>, calm: bool) returns (outcome: Outcome)
      requires Valid() && Uncommitted() && given == story.sources && Sources(given)
      modifies this`installed, this`story
      ensures Valid() && SameTransaction(old(story), story) && Slot(installed, Unit) == Slot(old(installed), Unit)
      ensures outcome == Ok ==> HelpersIn(given)
      ensures calm ==> outcome == Ok
    {
      outcome := Ok;
      :- InstallSource(Core, given, calm);
      outcome := InstallSource(Wrapper, given, calm);
    }

    /** _install_transaction_sources: the unit only once the helpers it runs are in place. */
    method InstallSources(given: map<Key, Bytes>, calm: bool) returns (outcome: Outcome)
      requires Valid() && Uncommitted() && given == story.sources && Sources(given)
      modifies this`installed, this`story
      ensures Valid() && SameTransaction(old(story), story)
      ensures Slot(installed, Unit) != Slot(old(installed), Unit) ==> HelpersIn(given)
      ensures outcome == Ok ==> AllInstalled(installed, given)
      ensures calm ==> outcome == Ok
    {
      outcome := Ok;
      :- Check(calm);
      :- InstallHelpers(given, calm);
      outcome := InstallSource(Unit, given, calm);
    }

    /** External checks, then the next phase. */
    method Advance(next: Phase, calm: bool) returns (outcome: Outcome)
      requires Valid() && tx.Some? && IsForward(next) && Legal(Current().value, next)
      requires AllInstalled(installed, story.sources) && story.length <= READ_LIMIT
      modifies this`tx, this`story
      ensures Valid() && tx.Some? && SameTransaction(old(story), story) && Pending(tx.value) == Pending(old(tx).value)
      ensures Current() == old(Current()) || Current() == Some(next)
      ensures outcome == Ok ==> Current() == Some(next)
      ensures calm ==> outcome == Ok
    {
      outcome := Ok;
      :- Check(calm);
      outcome := SetPhase(next, calm);
    }

    /** Installed, reloaded, restarted, verified. */
    method Climb(calm: bool) returns (outcome: Outcome)
      requires Valid() && Current() == Some(Prepared) && AllInstalled(installed, story.sources)
               && story.length <= READ_LIMIT
      modifies this`tx, this`story
      ensures Valid() && tx.Some? && SameTransaction(old(story), story) && Pending(tx.value) == Pending(old(tx).value)
      ensures Uncommitted() && (outcome == Ok ==> Current() == Some(Verified))
      ensures calm ==> outcome == Ok
    {
      outcome := Ok;
      :- Advance(Installed, calm);
      :- Advance(Reloaded, calm);
      :- Advance(Restarted, calm);
      outcome := Advance(Verified, calm);
    }

    /** The receipt, private to the transaction. */
    method WritePending(receipt: Content, calm: bool) returns (outcome: Outcome)
      requires Valid() && tx.Some?
      modifies this`tx
      ensures Valid() && tx.Some? && Current() == old(Current())
      ensures Pending(tx.value) == Pending(old(tx).value) || Pending(tx.value) == Some(receipt)
      ensures outcome == Ok ==> Pending(tx.value) == Some(receipt)
      ensures Pending(old(tx).value).Some? ==> outcome == Raised && tx == old(tx)
      ensures calm && Pending(old(tx).value) == None ==> outcome == Ok
    {
      if PendingReceipt in tx.value {
        return Raised;
      }
      :- Check(calm);
      SoundPending(installed, tx.value, story, validUnit, receipt);
      tx := Some(tx.value[PendingReceipt := receipt]);
      outcome := Check(calm);
    }

    method WritePublic(receipt: Content, calm: bool) returns (outcome: Outcome)
      modifies this`publicActivation
      ensures publicActivation == old(publicActivation) || publicActivation == Some(receipt)
      ensures outcome == Ok ==> publicActivation == Some(receipt)
      ensures calm ==> outcome == Ok
    {
      outcome := Ok;
      :- Check(calm);
      publicActivation := Some(receipt);
      outcome := Check(calm);
    }

    /**
     The receipts of an attempt, whose public place held before: there is a private one only once the
     verified phase is reached, a public one only beside the private one, and a commit only with both.
     */
    ghost predicate Receipted(receipt: Content, before: Option<Content>)
      reads this`tx, this`publicActivation
    {
      && tx.Some? && Pending(tx.value) in {None, Some(receipt)}
      && (Pending(tx.value).Some? ==> Current() in {Some(Verified), Some(Committed)})
      && (publicActivation == before || publicActivation == Pending(tx.value) == Some(receipt))
      && (Current() == Some(Committed) ==> publicActivation == Pending(tx.value) == Some(receipt))
    }

    /**
     The phases from prepared to committed; committed is the flag that the code sets last. late is an
     error between the rename that makes the commit durable and that flag, as when the fsync raises.
     */
    method Forward(given: map<Key, Bytes>, length: nat, receipt: Content, calm: bool, late: bool)
      returns (outcome: Outcome, committed: bool)
      requires Valid() && Freshly(given, length) && length <= READ_LIMIT
      modifies this`installed, this`tx, this`story, this`publicActivation
      ensures Valid() && tx.Some? && SameTransaction(old(story), story)
      ensures Receipted(receipt, old(publicActivation))
      ensures committed ==> Current() == Some(Committed)
      ensures outcome == Ok ==> committed
      ensures calm && !late ==> outcome == Ok
      ensures calm && late ==> outcome == Raised && !committed && Current() == Some(Committed)
    {
      committed := false;
      :- Check(calm);
      :- InstallSources(given, calm);
      :- Climb(calm);
      :- WritePending(receipt, calm);
      :- WritePublic(receipt, calm);
      :- Advance(Committed, calm);
      if late {
        return Raised, committed;
      }
      committed := true;
      outcome := Check(calm);
    }

    /** _cleanup_temporary_paths */
    method CleanupTemporary(calm: bool) returns (outcome: Outcome)
      modifies this`staging, this`tombstone
      ensures outcome == Ok ==> staging == None && !tombstone
      ensures calm ==> outcome == Ok
    {
      outcome := Ok;
      :- Check(calm);
      staging := None;
      :- Check(calm);
      tombstone := false;
      outcome := Check(calm);
    }

    /** The directory of an earlier committed activation is removed. */
    method ClearCommitted(calm: bool) returns (outcome: Outcome)
      requires Valid() && !Uncommitted() && !tombstone
      modifies this`tx, this`tombstone
      ensures Valid() && (tx == old(tx) || tx == None)
      ensures outcome == Ok ==> tx == None
      ensures calm ==> outcome == Ok
    {
      outcome := Check(calm);
      if outcome == Ok && tx.Some? {
        FaithfulLoads(tx.value, story.prior, story.sources, story.length, validUnit);
        if LoadManifest(tx.value, validUnit).None? {
          return Raised;
        }
        outcome := CleanupTransaction(calm);
      }
    }

    /** A new transaction, started where none is pending. */
    method Attempt(given: map<Key, Bytes>, measure: Measure, receipt: Content, calm: bool, late: bool)
      returns (outcome: Outcome, committed: bool)
      requires Valid() && !Uncommitted() && staging == None && !tombstone
      modifies this
      ensures Valid()
      ensures story == old(story)
              || (tx.Some? && story.id == old(story).id + 1 && story.prior == old(installed) && story.sources == given
                  && measure(old(installed)) == Some(story.length))
      ensures story == old(story) ==> !Uncommitted() && installed == old(installed) && !committed
      ensures if story == old(story) then publicActivation == old(publicActivation)
              else Receipted(receipt, old(publicActivation))
      ensures story == old(story) || Uncommitted()
              || (Activated(given) && Acceptable(old(installed), given, measure, validUnit))
      ensures committed ==> story != old(story) && !Uncommitted()
      ensures outcome == Ok ==> committed
      ensures calm && !late && Acceptable(old(installed), given, measure, validUnit) ==> outcome == Ok
      ensures calm && late && Acceptable(old(installed), given, measure, validUnit) ==>
                outcome == Raised && !committed && story != old(story) && !Uncommitted()
    {
      committed := false;
      :- ClearCommitted(calm);
      :- Prepare(given, measure, calm);
      outcome, committed := Forward(given, measure(installed).value, receipt, calm, late);
      if ReadPhase(tx.value) == Some(Committed) {
        CommittedIsActivated();
      }
    }

    /**
     The exception handler of activate: a commit of this attempt stands, anything else is rolled back.
     reread is how the handler's own look at the phase ended.
     */
    method Handle(committed: bool, calm: bool) returns (exit: Option<int>, ghost reread: Outcome)
      requires Valid() && (committed ==> Current() == Some(Committed))
      modifies this
      ensures Valid() && SameTransaction(old(story), story)
      ensures old(Uncommitted()) ==> Undone(old(Clear()))
      ensures old(Uncommitted()) ==> Withdrawn(Pending(old(tx).value), old(publicActivation), old(publicRollback))
      ensures !old(Uncommitted()) ==>
                tx == old(tx) && installed == old(installed) && publicActivation == old(publicActivation)
      ensures Settled() == old(Settled())
      ensures exit == Some(0) <==> committed && reread == Ok
      ensures calm ==> reread == Ok
      ensures calm && !committed && old(Current()) == Some(Committed) ==> exit == Some(1)
    {
      var outcome := Check(calm);
      reread := outcome;
      if outcome == Died {
        return None, reread;
      }
      if committed && outcome == Ok {
        return Some(0), reread;
      }
      exit := Some(1);
      if tx.Some? {
        var result := Rollback(calm);
        if result == Dead {
          exit := None;
        }
      }
    }

    /** The public receipt is this one, or there is none, or it is the pending one of a rollback still to do. */
    ghost predicate Published(receipt: Option<Content>)
      reads this
    {
      publicActivation in {receipt, None} || (Uncommitted() && publicActivation == Pending(tx.value))
    }

    /** activate where no rollback is pending, from the first write on. */
    method Start(given: map<Key, Bytes>, measure: Measure, receipt: Content, calm: bool, late: bool)
      returns (exit: Option<int>, ghost report: Report)
      requires Valid() && !Uncommitted() && staging == None && !tombstone
      modifies this
      ensures Valid()
      ensures Settled() == old(installed) || (Done(given, old(story).id))
      ensures story.length == old(story).length || measure(old(installed)) == Some(story.length)
      ensures report.flag ==> Done(given, old(story).id)
      ensures Done(given, old(story).id) ==> publicActivation == Some(receipt)
      ensures !Done(given, old(story).id) ==> Published(old(publicActivation))
      ensures exit == Some(0) <==> Reported(report)
      ensures Done(given, old(story).id) ==> Acceptable(old(installed), given, measure, validUnit)
      ensures calm && Acceptable(old(installed), given, measure, validUnit) ==>
                Done(given, old(story).id) && exit == Some(if late then 1 else 0)
    {
      var outcome, committed := Attempt(given, measure, receipt, calm, late);
      report := Report(committed, outcome, Ok);
      if outcome == Ok {
        exit := Some(0);
      } else if outcome == Died {
        exit := None;
      } else {
        ghost var reread;
        exit, reread := Handle(committed, calm);
        report := Report(committed, outcome, reread);
      }
    }

    /**
     activate: exit code, or None when the process died. Seen past any rollback still to do, it
     changes nothing or installs all three sources. Zero is returned exactly when the flag was set and
     either nothing was raised after it or the handler could read the phase again; so, with nothing
     else going wrong, a commit is reported as zero exactly when no error came before the flag.
     */
    method Activate(given: map<Key, Bytes>, measure: Measure, receipt: Content, calm: bool, late: bool)
      returns (exit: Option<int>, ghost report: Report)
      requires Valid()
      modifies this
      ensures Valid()
      ensures old(Uncommitted()) ==> SameTransaction(old(story), story) && Undone(old(Clear())) && !report.flag
      ensures old(Uncommitted()) ==> Withdrawn(Pending(old(tx).value), old(publicActivation), old(publicRollback))
      ensures Settled() == old(Settled()) || (Done(given, old(story).id))
      ensures story.length == old(story).length || measure(old(installed)) == Some(story.length)
      ensures report.flag ==> Done(given, old(story).id)
      ensures Done(given, old(story).id) ==> publicActivation == Some(receipt)
      ensures !Done(given, old(story).id) ==> Published(old(publicActivation))
      ensures exit == Some(0) <==> Reported(report)
      ensures calm && old(Uncommitted()) && old(Clear()) ==> tx == None
      ensures calm && !old(Uncommitted()) ==>
                (Done(given, old(story).id) <==> Acceptable(old(installed), given, measure, validUnit))
      ensures calm && !old(Uncommitted()) ==> (exit == Some(0) <==> Done(given, old(story).id) && !late)
      ensures calm && !old(Uncommitted()) && Done(given, old(story).id) && late ==> exit == Some(1)
    {
      report := Report(false, Ok, Ok);
      var outcome := Check(calm);
      if outcome != Ok {
        exit := if outcome == Died then None else Some(1);
        return;
      }
      outcome := CleanupTemporary(calm);
      if outcome == Died {
        exit := None;
      } else if outcome == Raised {
        ghost var reread;
        exit, reread := Handle(false, calm);
      } else if tx.Some? && ReadPhase(tx.value) != Some(Committed) {
        var result := Rollback(calm);
        exit := if result == Dead then None else Some(1);
      } else {
        exit, report := Start(given, measure, receipt, calm, late);
      }
    }
  }

  // ----- whole lives of a host -----

  datatype Job = Job(sources: map<Key, Bytes>, capture: Capture, receipt: Content)

  /** Every job that committed had all three sources. */
  ghost predicate Complete(jobs: seq<Job>, done: seq<bool>) {
    |done| <= |jobs| && forall i :: 0 <= i < |done| && done[i] ==> Sources(jobs[i].sources)
  }

  /** The files left by the last job that committed, if any did. */
  ghost function LastCommitted(jobs: seq<Job>, done: seq<bool>, first: Files): (files: Files)
    requires Complete(jobs, done)
    decreases |done|
  {
    if done == [] then first
    else if done[|done| - 1] then SourceFiles(jobs[|done| - 1].sources)
    else LastCommitted(jobs, done[..|done| - 1], first)
  }

  /** The receipt of the last job that committed, if any did. */
  ghost function LastReceipt(jobs: seq<Job>, done: seq<bool>, first: Option<Content>): Option<Content>
    requires |done| <= |jobs|
    decreases |done|
  {
    if done == [] then first
    else if done[|done| - 1] then Some(jobs[|done| - 1].receipt)
    else LastReceipt(jobs, done[..|done| - 1], first)
  }

  lemma {:induction false} LastReceiptSnoc(jobs: seq<Job>, done: seq<bool>, now: bool, first: Option<Content>)
    requires |done| < |jobs|
    ensures LastReceipt(jobs, done + [now], first)
            == if now then Some(jobs[|done|].receipt) else LastReceipt(jobs, done, first)
  {
    assert (done + [now])[..|done|] == done;
  }

  lemma {:induction false} LastCommittedSnoc(jobs: seq<Job>, done: seq<bool>, now: bool, first: Files)
    requires |done| < |jobs| && Complete(jobs, done)
    requires now ==> Sources(jobs[|done|].sources)
    ensures Complete(jobs, done + [now])
    ensures LastCommitted(jobs, done + [now], first)
            == if now then SourceFiles(jobs[|done|].sources) else LastCommitted(jobs, done, first)
  {
    assert (done + [now])[..|done|] == done;
  }

  predicate AllPlainJobs(jobs: seq<Job>) {
    forall job :: job in jobs ==> PlainCapture(job.capture)
  }

  lemma {:induction false} PlainIsMeasured(capture: Capture, files: Files)
    requires PlainCapture(capture)
    ensures match ParseAnswers(capture.answers)
            case None => MeasureOf(capture)(files) == None
            case Some(_) => Fits(MeasureOf(capture)(files))
  {
    PriorsAreReal(files);
    PlainManifestFits(capture, PriorsOf(files));
  }

  /** last: the receipt of the last job that committed. */
  method RunJob(host: Host, job: Job, ghost last: Option<Content>) returns (exit: Option<int>, ghost done: bool)
    requires host.Valid() && host.Published(last)
    modifies host
    ensures host.Valid() && (exit == Some(0) ==> done) && (done ==> Sources(job.sources))
    ensures host.Settled() == if done then SourceFiles(job.sources) else old(host.Settled())
    ensures host.Published(if done then Some(job.receipt) else last)
    ensures done ==> host.publicActivation == Some(job.receipt)
    ensures PlainCapture(job.capture) && old(host.story).length <= READ_LIMIT ==> host.story.length <= READ_LIMIT
  {
    ghost var id := host.story.id;
    var late: bool := *;
    ghost var report;
    if PlainCapture(job.capture) {
      PlainIsMeasured(job.capture, host.installed);
    }
    exit, report := host.Activate(job.sources, MeasureOf(job.capture), job.receipt, false, late);
    done := host.Done(job.sources, id);
  }

  lemma {:induction false} SoundIsSealed(installed: Files, tx: Option<Directory>, story: Story,
                                         validUnit: Bytes -> bool)
    requires Sound(installed, tx, story, validUnit)
    ensures LogSound(story.log, story.id, None)
  {}

  /**
   Any number of activations, each failing or dying anywhere: past a pending rollback the files are
   always those of the last job that committed, all three of them, or the first ones; an exit code of
   zero means that very job committed; and the log stays sound, so that every transaction's phases
   are legal and a committed one is never touched again. The public receipt is that of the last job
   that committed, or withdrawn, or the pending one of a rollback still to do. With plain answers from systemctl every
   manifest can be read back, so that only conflicting receipts can keep a rollback from its end.
   */
  method RunMany(host: Host, jobs: seq<Job>) returns (exits: seq<Option<int>>, ghost done: seq<bool>)
    requires host.Valid()
    modifies host
    ensures host.Valid() && LogSound(host.story.log, host.story.id, None)
    ensures |done| == |exits| == |jobs|
    ensures forall i :: 0 <= i < |jobs| && exits[i] == Some(0) ==> done[i]
    ensures Complete(jobs, done)
    ensures host.Settled() == LastCommitted(jobs, done, old(host.Settled()))
    ensures host.Published(LastReceipt(jobs, done, old(host.publicActivation)))
    ensures old(host.story).length <= READ_LIMIT && AllPlainJobs(jobs) && host.Uncommitted() ==>
              (host.Clear() <==> !Conflict(Pending(host.tx.value), host.publicActivation))
  {
    exits, done := [], [];
    while |exits| < |jobs|
      invariant host.Valid()
      invariant |done| == |exits| <= |jobs|
      invariant forall i :: 0 <= i < |done| && exits[i] == Some(0) ==> done[i]
      invariant Complete(jobs, done)
      invariant host.Settled() == LastCommitted(jobs, done, old(host.Settled()))
      invariant host.Published(LastReceipt(jobs, done, old(host.publicActivation)))
      invariant old(host.story).length <= READ_LIMIT && AllPlainJobs(jobs) ==> host.story.length <= READ_LIMIT
    {
      ghost var last := LastReceipt(jobs, done, old(host.publicActivation));
      var exit, now := RunJob(host, jobs[|exits|], last);
      LastCommittedSnoc(jobs, done, now, old(host.Settled()));
      LastReceiptSnoc(jobs, done, now, old(host.publicActivation));
      exits, done := exits + [exit], done + [now];
    }
    SoundIsSealed(host.installed, host.tx, host.story, host.validUnit);
  }

  /**
   Any number of interrupted recoveries, then one that nothing disturbs: the exact prior is back if
   and only if the manifest can be read and the receipts do not conflict, which no recovery changes.
   */
  method RecoverMany(host: Host, jobs: seq<Job>, last: Job)
    requires host.Valid() && host.Uncommitted()
    modifies host
    ensures host.Valid() && SameTransaction(old(host.story), host.story)
    ensures old(host.Clear()) ==> host.tx == None && host.installed == old(host.story).prior
    ensures !old(host.Clear()) ==> host.Uncommitted() && !host.Clear()
  {
    var i := 0;
    while i < |jobs| && host.tx.Some?
      invariant 0 <= i <= |jobs|
      invariant host.Valid() && SameTransaction(old(host.story), host.story) && host.Undone(old(host.Clear()))
    {
      var late: bool := *;
      var measure := MeasureOf(jobs[i].capture);
      var exit, report := host.Activate(jobs[i].sources, measure, jobs[i].receipt, false, late);
      i := i + 1;
    }
    if host.tx.Some? {
      var exit, report := host.Activate(last.sources, MeasureOf(last.capture), last.receipt, true, false);
    }
  }

  /** An activation that dies after its private receipt and before its public one. */
  method DieBetweenReceipts(host: Host, sources: map<Key, Bytes>, measure: Measure, receipt: Content)
    requires host.Valid() && !host.Uncommitted() && !host.tombstone && host.staging == None
    requires Acceptable(host.installed, sources, measure, host.validUnit)
    modifies host
    ensures host.Valid() && host.Uncommitted() && host.Settled() == old(host.installed)
    ensures host.Current() == Some(Verified) && AllInstalled(host.installed, sources)
    ensures host.story.sources == sources && measure(old(host.installed)) == Some(host.story.length)
    ensures host.publicActivation == old(host.publicActivation) && Pending(host.tx.value) == Some(receipt)
  {
    var outcome := host.ClearCommitted(true);
    outcome := host.Prepare(sources, measure, true);
    outcome := host.InstallSources(sources, true);
    outcome := host.Climb(true);
    outcome := host.WritePending(receipt, true);
  }

  lemma {:induction false} SourcesReadable(sources: map<Key, Bytes>)
    requires Sources(sources)
    ensures Readable(SourceFiles(sources))
  {}

  /** One activation that commits, and a second one that dies between its receipts. */
  method CommitThenDie(validUnit: Bytes -> bool, first: Files, sources: map<Key, Bytes>, measure: Measure,
                       receipt: Content, other: Content)
    returns (host: Host)
    requires Sources(sources) && Readable(first) && validUnit(sources[Unit]) && receipt != other
    requires Fits(measure(first)) && Fits(measure(SourceFiles(sources)))
    ensures host.Valid() && host.Uncommitted() && !host.Clear() && host.Settled() == SourceFiles(sources)
  {
    host := new Host(validUnit, first);
    SourcesReadable(sources);
    var exit, report := host.Activate(sources, measure, receipt, true, false);
    var outcome := host.CleanupTemporary(true);
    DieBetweenReceipts(host, sources, measure, other);
  }

  /**
   The receipts do come to conflict, with plain answers too: a second activation, with another
   receipt, that dies between its private and its public receipt leaves a transaction that no
   recovery can end.
   */
  method StuckByOlderReceipt(validUnit: Bytes -> bool, first: Files, job: Job, other: Content) returns (host: Host)
    requires Sources(job.sources) && Readable(first) && validUnit(job.sources[Unit])
    requires PlainCapture(job.capture) && job.receipt != other
    ensures host.Valid()
    ensures ParseAnswers(job.capture.answers).Some? ==>
              host.Uncommitted() && !host.Clear() && host.Settled() == SourceFiles(job.sources)
  {
    if ParseAnswers(job.capture.answers).Some? {
      PlainIsMeasured(job.capture, first);
      PlainIsMeasured(job.capture, SourceFiles(job.sources));
      host := CommitThenDie(validUnit, first, job.sources, MeasureOf(job.capture), job.receipt, other);
    } else {
      host := new Host(validUnit, first);
    }
  }

  /**
   A commit that is reported as a failure: on a host where nothing else goes wrong, an error between
   the commit and the flag makes activate return 1 with all three sources installed and committed.
   */
  method CommittedButOne(host: Host, sources: map<Key, Bytes>, measure: Measure, receipt: Content)
    returns (exit: Option<int>)
    requires host.Valid() && !host.Uncommitted() && Acceptable(host.installed, sources, measure, host.validUnit)
    modifies host
    ensures host.Valid() && exit == Some(1) && host.Done(sources, old(host.story).id)
  {
    ghost var report;
    exit, report := host.Activate(sources, measure, receipt, true, true);
  }

  /** A manifest too long to be read back is published all the same. */
  method PublishTooLong(host: Host, sources: map<Key, Bytes>, measure: Measure)
    requires host.Valid() && host.tx == None && host.staging == None
    requires Preparable(host.installed, sources, measure, host.validUnit) && !Fits(measure(host.installed))
    modifies host
    ensures host.Valid() && host.Uncommitted() && !host.Clear()
  {
    var outcome := host.Prepare(sources, measure, true);
  }

  /**
   Four answers that are each short enough but full of characters that JSON escapes: the manifest is
   published, cannot be read back, and no recovery can end that either.
   */
  method StuckByLongManifest(host: Host, sources: map<Key, Bytes>, config: Config, c: char)
    requires host.Valid() && host.tx == None && host.staging == None && Production(config) && Swells(c)
    requires Sources(sources) && Readable(host.installed) && host.validUnit(sources[Unit])
    modifies host
    ensures host.Valid() && host.Uncommitted() && !host.Clear()
  {
    PriorsAreReal(host.installed);
    SwollenManifest(config, PriorsOf(host.installed), c);
    PublishTooLong(host, sources, MeasureOf(Capture(config, SwollenAnswers(c))));
  }
}
