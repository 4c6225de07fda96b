/**
 The trusted symlink walk of the replay sandbox (scripts/querit_replay_sandbox.py). The reference is
 ordinary pathname resolution, section 4.13 of POSIX.1-2017 Base Definitions, over any filesystem.
 */
module TrustedWalk {
  import opened Foundations

  const MAX_SYMLINKS: nat := 8
  const MAX_PYTHON_BYTES: nat := 128 * 1024 * 1024

  type Name = string

  /** An absolute path, by its components. */
  type Path = seq<Name>

  type Owner = (int, int)

  /** A link's text: tidy when it is non-empty, bounded and equal to its own normal form. */
  datatype Target = Target(tidy: bool, absolute: bool, parts: seq<Name>)

  datatype Kind = Directory | Regular | Symlink(target: Target) | Other

  /** writable: group or world may write; identity: device and inode. */
  datatype Node = Node(kind: Kind, owner: Owner, writable: bool, executable: bool, identity: (int, int), links: nat,
                       size: nat)

  /** Every object by its physical location. */
  type FileSystem = map<Path, Node>

  predicate Plain(name: Name) {
    name != "" && name != "." && name != ".."
  }

  predicate Canonical(path: Path) {
    forall i :: 0 <= i < |path| ==> Plain(path[i])
  }

  predicate Under(path: Path, root: Path) {
    root <= path
  }

  // ----- ordinary pathname resolution -----

  /** Where a resolution ends, and the directories it went through. */
  datatype Resolution = Stuck | Arrived(path: Path, crossed: set<Path>)

  function Enter(r: Resolution, directory: Path): Resolution {
    match r
    case Stuck => Stuck
    case Arrived(path, crossed) => Arrived(path, crossed + {directory})
  }

  function Resolve(fs: FileSystem, current: Path, pending: seq<Name>, steps: nat): Resolution
    decreases steps
  {
    if pending == [] then Arrived(current, {})
    else if steps == 0 then Stuck
    else
      var rest := pending[1..];
      if pending[0] == "." then Resolve(fs, current, rest, steps - 1)
      else if pending[0] == ".." then
        Resolve(fs, if current == [] then [] else current[..|current| - 1], rest, steps - 1)
      else
        var at := current + [pending[0]];
        if at !in fs then Stuck else
          match fs[at].kind
          case Symlink(target) =>
            Resolve(fs, if target.absolute then [] else current, target.parts + rest, steps - 1)
          case Directory => Enter(Resolve(fs, at, rest, steps - 1), at)
          case _ => if rest == [] then Arrived(at, {}) else Stuck
  }

  predicate IsDirectory(fs: FileSystem, path: Path) {
    path == [] || (path in fs && fs[path].kind.Directory?)
  }

  /** Within steps, the pending names lead from current to path, through directories of allowed only. */
  predicate ReachesIn(fs: FileSystem, current: Path, pending: seq<Name>, path: Path, allowed: set<Path>, steps: nat) {
    var r := Resolve(fs, current, pending, steps);
    r.Arrived? && r.path == path && r.crossed <= allowed
  }

  ghost predicate Reaches(fs: FileSystem, current: Path, pending: seq<Name>, path: Path, allowed: set<Path>) {
    exists steps: nat :: ReachesIn(fs, current, pending, path, allowed, steps)
  }

  lemma {:induction false} MoreSteps(fs: FileSystem, current: Path, pending: seq<Name>, n: nat, more: nat)
    requires n <= more && Resolve(fs, current, pending, n).Arrived?
    ensures Resolve(fs, current, pending, more) == Resolve(fs, current, pending, n)
    decreases n
  {
    if pending != [] && n > 0 {
      var rest := pending[1..];
      if pending[0] == "." {
        MoreSteps(fs, current, rest, n - 1, more - 1);
      } else if pending[0] == ".." {
        MoreSteps(fs, if current == [] then [] else current[..|current| - 1], rest, n - 1, more - 1);
      } else {
        var at := current + [pending[0]];
        match fs[at].kind
        case Symlink(target) =>
          MoreSteps(fs, if target.absolute then [] else current, target.parts + rest, n - 1, more - 1);
        case Directory =>
          MoreSteps(fs, at, rest, n - 1, more - 1);
        case _ =>
      }
    }
  }

  /** Resolution has one answer. */
  lemma {:induction false} OneAnswer(fs: FileSystem, current: Path, pending: seq<Name>, n: nat, m: nat)
    requires Resolve(fs, current, pending, n).Arrived? && Resolve(fs, current, pending, m).Arrived?
    ensures Resolve(fs, current, pending, n) == Resolve(fs, current, pending, m)
  {
    if n <= m {
      MoreSteps(fs, current, pending, n, m);
    } else {
      MoreSteps(fs, current, pending, m, n);
    }
  }

  /** Whatever resolution arrives at, within any number of steps, is that path, through allowed directories. */
  lemma {:induction false} ReachesMeans(fs: FileSystem, current: Path, pending: seq<Name>, path: Path,
                                        allowed: set<Path>, steps: nat)
    requires Reaches(fs, current, pending, path, allowed)
    ensures match Resolve(fs, current, pending, steps)
            case Stuck => true
            case Arrived(end, crossed) => end == path && crossed <= allowed
  {
    var n: nat :| ReachesIn(fs, current, pending, path, allowed, n);
    if Resolve(fs, current, pending, steps).Arrived? {
      OneAnswer(fs, current, pending, n, steps);
    }
  }

  lemma {:induction false} ComposeIn(fs: FileSystem, current: Path, a: seq<Name>, middle: Path, b: seq<Name>,
                                     path: Path,
                                     allowed: set<Path>, n: nat, m: nat)
    requires ReachesIn(fs, current, a, middle, allowed, n) && IsDirectory(fs, middle)
    requires ReachesIn(fs, middle, b, path, allowed, m)
    ensures ReachesIn(fs, current, a + b, path, allowed, n + m)
    decreases n
  {
    if a == [] {
      assert a + b == b;
      MoreSteps(fs, middle, b, m, n + m);
    } else {
      var rest := a[1..];
      assert (a + b)[0] == a[0] && (a + b)[1..] == rest + b;
      if a[0] == "." {
        ComposeIn(fs, current, rest, middle, b, path, allowed, n - 1, m);
      } else if a[0] == ".." {
        ComposeIn(fs, if current == [] then [] else current[..|current| - 1], rest, middle, b, path, allowed, n - 1, m);
      } else {
        var at := current + [a[0]];
        match fs[at].kind
        case Symlink(target) =>
          ComposeIn(fs, if target.absolute then [] else current, target.parts + rest,
                    middle, b, path, allowed, n - 1, m);
          assert target.parts + (rest + b) == (target.parts + rest) + b;
        case Directory =>
          ComposeIn(fs, at, rest, middle, b, path, allowed, n - 1, m);
        case _ =>
      }
    }
  }

  lemma {:induction false} Compose(fs: FileSystem, current: Path, a: seq<Name>, middle: Path, b: seq<Name>, path: Path,
                                   allowed: set<Path>)
    requires Reaches(fs, current, a, middle, allowed) && IsDirectory(fs, middle)
    requires Reaches(fs, middle, b, path, allowed)
    ensures Reaches(fs, current, a + b, path, allowed)
  {
    var n: nat :| ReachesIn(fs, current, a, middle, allowed, n);
    var m: nat :| ReachesIn(fs, middle, b, path, allowed, m);
    ComposeIn(fs, current, a, middle, b, path, allowed, n, m);
  }

  /** names are plain directories, one inside the other, from start on. */
  predicate PlainDirectories(fs: FileSystem, start: Path, names: seq<Name>) {
    forall i :: 0 <= i < |names| ==>
      Plain(names[i]) && start + names[..i + 1] in fs && fs[start + names[..i + 1]].kind.Directory?
  }

  /** Walking through plain directories can be cut off the front of a resolution. */
  lemma {:induction false} CutIn(fs: FileSystem, start: Path, names: seq<Name>, b: seq<Name>, path: Path,
                                 allowed: set<Path>, n: nat)
    requires PlainDirectories(fs, start, names) && ReachesIn(fs, start, names + b, path, allowed, n)
    ensures n >= |names| && ReachesIn(fs, start + names, b, path, allowed, n - |names|)
    decreases |names|
  {
    if names == [] {
      assert names + b == b && start + names == start;
    } else {
      var at, rest := start + [names[0]], names[1..];
      assert (names + b)[0] == names[0] && (names + b)[1..] == rest + b;
      assert at == start + names[..1];
      assert PlainDirectories(fs, at, rest) by {
        forall i | 0 <= i < |rest|
          ensures Plain(rest[i]) && at + rest[..i + 1] in fs && fs[at + rest[..i + 1]].kind.Directory?
        {
          assert at + rest[..i + 1] == start + names[..i + 2];
        }
      }
      CutIn(fs, at, rest, b, path, allowed, n - 1);
      assert at + rest == start + names;
    }
  }

  lemma {:induction false} Cut(fs: FileSystem, start: Path, names: seq<Name>, b: seq<Name>, path: Path,
                               allowed: set<Path>)
    requires PlainDirectories(fs, start, names) && Reaches(fs, start, names + b, path, allowed)
    ensures Reaches(fs, start + names, b, path, allowed)
  {
    var n: nat :| ReachesIn(fs, start, names + b, path, allowed, n);
    CutIn(fs, start, names, b, path, allowed, n);
  }

  /** One step through a directory, or onto the last name. */
  lemma {:induction false} StepDirectory(fs: FileSystem, current: Path, name: Name, rest: seq<Name>, path: Path,
                                         allowed: set<Path>)
    requires Plain(name) && current + [name] in fs && fs[current + [name]].kind.Directory?
    requires current + [name] in allowed && Reaches(fs, current + [name], rest, path, allowed)
    ensures Reaches(fs, current, [name] + rest, path, allowed)
  {
    var n: nat :| ReachesIn(fs, current + [name], rest, path, allowed, n);
    assert ([name] + rest)[1..] == rest;
    assert ReachesIn(fs, current, [name] + rest, path, allowed, n + 1);
  }

  lemma {:induction false} StepInto(fs: FileSystem, current: Path, name: Name, allowed: set<Path>)
    requires Plain(name) && current + [name] in fs && fs[current + [name]].kind.Directory?
    requires current + [name] in allowed
    ensures Reaches(fs, current, [name], current + [name], allowed)
  {
    assert ReachesIn(fs, current + [name], [], current + [name], allowed, 0);
    StepDirectory(fs, current, name, [], current + [name], allowed);
    assert [name] + [] == [name];
  }

  lemma {:induction false} StepLink(fs: FileSystem, current: Path, name: Name, rest: seq<Name>, path: Path,
                                    allowed: set<Path>)
    requires Plain(name) && current + [name] in fs && fs[current + [name]].kind.Symlink?
    requires var t := fs[current + [name]].kind.target;
             Reaches(fs, if t.absolute then [] else current, t.parts + rest, path, allowed)
    ensures Reaches(fs, current, [name] + rest, path, allowed)
  {
    var t := fs[current + [name]].kind.target;
    var n: nat :| ReachesIn(fs, if t.absolute then [] else current, t.parts + rest, path, allowed, n);
    assert ([name] + rest)[1..] == rest;
    assert ReachesIn(fs, current, [name] + rest, path, allowed, n + 1);
  }

  lemma {:induction false} StepFinal(fs: FileSystem, current: Path, name: Name, allowed: set<Path>)
    requires Plain(name) && current + [name] in fs && fs[current + [name]].kind.Regular?
    ensures Reaches(fs, current, [name], current + [name], allowed)
  {
    assert [name][1..] == [];
    assert ReachesIn(fs, current, [name], current + [name], allowed, 1);
  }

  // ----- what lstat sees, within the kernel's own limit of steps -----

  /** The physical location of a path whose last name is not followed. */
  function Locate(fs: FileSystem, steps: nat, path: Path): Option<Path> {
    if path == [] then Some([]) else
      var r := Resolve(fs, [], path[..|path| - 1], steps);
      if r.Arrived? && IsDirectory(fs, r.path) then Some(r.path + [path[|path| - 1]]) else None
  }

  function Lstat(fs: FileSystem, steps: nat, path: Path): Option<Node> {
    var at := Locate(fs, steps, path);
    if at.Some? && at.value in fs then Some(fs[at.value]) else None
  }

  /** Directories that have an expected owner and are not writable by others. */
  function Safe(fs: FileSystem, owners: set<Owner>): set<Path> {
    set d | d in fs && fs[d].kind.Directory? && fs[d].owner in owners && !fs[d].writable
  }

  predicate TrustedDirectory(fs: FileSystem, steps: nat, owners: set<Owner>, path: Path) {
    var node := Lstat(fs, steps, path);
    node.Some? && node.value.kind.Directory? && node.value.owner in owners && !node.value.writable
  }

  predicate TrustedExecutable(node: Node, owners: set<Owner>) {
    && node.kind.Regular? && node.owner in owners && !node.writable && node.executable
    && node.links == 1 && 0 < node.size <= MAX_PYTHON_BYTES
  }

  /** Directories above the trusted roots, which are checked only when declared. */
  function Approach(fs: FileSystem, steps: nat, roots: seq<Path>): set<Path> {
    set r, d | r in roots && d in Above(fs, steps, r) :: d
  }

  function Above(fs: FileSystem, steps: nat, root: Path): set<Path> {
    if root == [] then {} else
      var r := Resolve(fs, [], root[..|root| - 1], steps);
      if r.Arrived? then r.crossed else {}
  }

  /** Every directory above a trusted root is itself declared as a trusted ancestor. */
  predicate AllDeclared(roots: seq<Path>, ancestors: seq<Path>) {
    forall r :: r in roots ==> forall i :: 0 < i < |r| ==> r[..i] in ancestors
  }

  function Allowed(fs: FileSystem, steps: nat, owners: set<Owner>, roots: seq<Path>, ancestors: seq<Path>): set<Path> {
    if AllDeclared(roots, ancestors) then Safe(fs, owners)
    else Safe(fs, owners) + Approach(fs, steps, roots)
  }

  predicate RootAttested(fs: FileSystem, steps: nat, owners: set<Owner>, ancestors: seq<Path>, root: Path) {
    && TrustedDirectory(fs, steps, owners, root)
    && forall a :: a in ancestors && Under(root, a) ==> TrustedDirectory(fs, steps, owners, a)
  }

  lemma {:induction false} DeclaredIsPhysical(fs: FileSystem, steps: nat, owners: set<Owner>, root: Path, k: nat)
    requires k <= |root| && Canonical(root)
    requires forall i :: 0 < i <= k ==> TrustedDirectory(fs, steps, owners, root[..i])
    ensures Reaches(fs, [], root[..k], root[..k], Safe(fs, owners)) && IsDirectory(fs, root[..k])
  {
    if k == 0 {
      assert ReachesIn(fs, [], [], [], Safe(fs, owners), 0);
      assert root[..0] == [];
    } else {
      DeclaredIsPhysical(fs, steps, owners, root, k - 1);
      var above, here := root[..k - 1], root[..k];
      assert here[..|here| - 1] == above && here == above + [root[k - 1]];
      var n: nat :| ReachesIn(fs, [], above, above, Safe(fs, owners), n);
      OneAnswer(fs, [], above, n, steps);
      assert Locate(fs, steps, here) == Some(here);
      StepInto(fs, above, root[k - 1], Safe(fs, owners));
      Compose(fs, [], above, above, [root[k - 1]], here, Safe(fs, owners));
    }
  }

  /** An attested root is a directory that ordinary resolution reaches through allowed directories. */
  lemma {:induction false} RootReached(fs: FileSystem, steps: nat, owners: set<Owner>, roots: seq<Path>,
                                       ancestors: seq<Path>, root: Path)
    returns (at: Path)
    requires root in roots && Canonical(root) && RootAttested(fs, steps, owners, ancestors, root)
    ensures Reaches(fs, [], root, at, Allowed(fs, steps, owners, roots, ancestors)) && IsDirectory(fs, at)
    ensures AllDeclared(roots, ancestors) ==> at == root
  {
    var allowed := Allowed(fs, steps, owners, roots, ancestors);
    if AllDeclared(roots, ancestors) {
      assert root[..|root|] == root;
      forall i | 0 < i <= |root| ensures TrustedDirectory(fs, steps, owners, root[..i]) {
        if i < |root| {
          assert Under(root, root[..i]);
        }
      }
      DeclaredIsPhysical(fs, steps, owners, root, |root|);
      at := root;
    } else if root == [] {
      at := [];
      assert ReachesIn(fs, [], [], [], allowed, 0);
    } else {
      var above, last := root[..|root| - 1], root[|root| - 1];
      var r := Resolve(fs, [], above, steps);
      at := r.path + [last];
      assert root == above + [last];
      assert r.crossed <= allowed by {
        assert r.crossed == Above(fs, steps, root);
      }
      assert ReachesIn(fs, [], above, r.path, allowed, steps);
      StepInto(fs, r.path, last, allowed);
      Compose(fs, [], above, r.path, [last], at, allowed);
    }
  }

  // ----- the walk -----

  /** The walk stands at current, which is root and then plain directories; what is left leads on. */
  ghost predicate Tracks(fs: FileSystem, allowed: set<Path>, launcher: Path, root: Path, at: Path, current: Path,
                         pending: seq<Name>) {
    && Under(current, root)
    && Reaches(fs, [], root, at, allowed) && IsDirectory(fs, at)
    && PlainDirectories(fs, at, current[|root|..])
    && (forall p :: Reaches(fs, at + current[|root|..], pending, p, allowed) ==> Reaches(fs, [], launcher, p, allowed))
    && Reaches(fs, [], current, at + current[|root|..], allowed)
    && IsDirectory(fs, at + current[|root|..])
  }

  lemma {:induction false} TracksStart(fs: FileSystem, allowed: set<Path>, launcher: Path, root: Path, at: Path)
    requires Under(launcher, root) && Reaches(fs, [], root, at, allowed) && IsDirectory(fs, at)
    ensures Tracks(fs, allowed, launcher, root, at, root, launcher[|root|..])
  {
    assert root[|root|..] == [] && at + [] == at;
    forall p | Reaches(fs, at, launcher[|root|..], p, allowed) ensures Reaches(fs, [], launcher, p, allowed) {
      Compose(fs, [], root, at, launcher[|root|..], p, allowed);
      assert root + launcher[|root|..] == launcher;
    }
  }

  /** lstat of the next candidate looks where the walk stands. */
  lemma {:induction false} CandidateLocated(fs: FileSystem, steps: nat, allowed: set<Path>, launcher: Path, root: Path,
                                            at: Path,
                         current: Path, pending: seq<Name>, name: Name)
    requires Tracks(fs, allowed, launcher, root, at, current, pending)
    ensures var here := Locate(fs, steps, current + [name]);
            here.Some? ==> here.value == at + current[|root|..] + [name]
  {
    assert (current + [name])[..|current|] == current;
    var n: nat :| ReachesIn(fs, [], current, at + current[|root|..], allowed, n);
    if Resolve(fs, [], current, steps).Arrived? {
      OneAnswer(fs, [], current, n, steps);
    }
  }

  lemma {:induction false} DirectoriesGrow(fs: FileSystem, at: Path, path: Path, name: Name)
    requires PlainDirectories(fs, at, path) && Plain(name)
    requires at + path + [name] in fs && fs[at + path + [name]].kind.Directory?
    ensures PlainDirectories(fs, at, path + [name])
  {
    var names := path + [name];
    assert at + names == at + path + [name];
    forall i | 0 <= i < |names|
      ensures Plain(names[i]) && at + names[..i + 1] in fs && fs[at + names[..i + 1]].kind.Directory?
    {
      if i < |path| {
        assert names[..i + 1] == path[..i + 1];
      } else {
        assert names[..i + 1] == names;
      }
    }
  }

  lemma {:induction false} TracksDirectory(fs: FileSystem, allowed: set<Path>, launcher: Path, root: Path, at: Path,
                        current: Path, name: Name, rest: seq<Name>)
    requires Tracks(fs, allowed, launcher, root, at, current, [name] + rest) && Plain(name)
    requires var here := at + current[|root|..] + [name];
             here in fs && fs[here].kind.Directory? && here in allowed
    ensures Tracks(fs, allowed, launcher, root, at, current + [name], rest)
  {
    var base := at + current[|root|..];
    var here := base + [name];
    var names := (current + [name])[|root|..];
    assert names == current[|root|..] + [name] && at + names == here;
    assert PlainDirectories(fs, at, names) by {
      DirectoriesGrow(fs, at, current[|root|..], name);
    }
    forall p | Reaches(fs, here, rest, p, allowed) ensures Reaches(fs, [], launcher, p, allowed) {
      StepDirectory(fs, base, name, rest, p, allowed);
    }
    StepInto(fs, base, name, allowed);
    Compose(fs, [], current, base, [name], here, allowed);
  }

  /** Where a link's text leads, read from the directory the walk stands in. */
  function Combined(current: Path, t: Target): Path {
    if t.absolute then t.parts else current + t.parts
  }

  /** Restarting at the new root with the link's text is what ordinary resolution does with the link. */
  lemma {:induction false} LinkLeads(fs: FileSystem, allowed: set<Path>, root: Path, at: Path, current: Path,
                                     base: Path, name: Name,
                  t: Target, rest: seq<Name>, newRoot: Path, newAt: Path, p: Path)
    requires Under(current, root) && base == at + current[|root|..] && PlainDirectories(fs, at, current[|root|..])
    requires Plain(name) && base + [name] in fs && fs[base + [name]].kind == Symlink(t)
    requires Under(Combined(current, t), newRoot) && (!t.absolute ==> newRoot == root && newAt == at)
    requires Reaches(fs, [], newRoot, newAt, allowed) && IsDirectory(fs, newAt)
    requires Reaches(fs, newAt, Combined(current, t)[|newRoot|..] + rest, p, allowed)
    ensures Reaches(fs, base, [name] + rest, p, allowed)
  {
    var tail := Combined(current, t)[|newRoot|..] + rest;
    if t.absolute {
      Compose(fs, [], newRoot, newAt, tail, p, allowed);
      assert newRoot + tail == t.parts + rest;
    } else {
      assert tail == current[|root|..] + (t.parts + rest);
      Cut(fs, at, current[|root|..], t.parts + rest, p, allowed);
    }
    StepLink(fs, base, name, rest, p, allowed);
  }

  lemma {:induction false} TracksLink(fs: FileSystem, allowed: set<Path>, launcher: Path, root: Path, at: Path,
                   current: Path, base: Path, name: Name, t: Target, rest: seq<Name>, newRoot: Path, newAt: Path)
    requires Tracks(fs, allowed, launcher, root, at, current, [name] + rest) && Plain(name)
    requires base == at + current[|root|..] && base + [name] in fs && fs[base + [name]].kind == Symlink(t)
    requires Under(Combined(current, t), newRoot) && (!t.absolute ==> newRoot == root && newAt == at)
    requires Reaches(fs, [], newRoot, newAt, allowed) && IsDirectory(fs, newAt)
    ensures Tracks(fs, allowed, launcher, newRoot, newAt, newRoot, Combined(current, t)[|newRoot|..] + rest)
  {
    assert newRoot[|newRoot|..] == [] && newAt + [] == newAt;
    forall p | Reaches(fs, newAt, Combined(current, t)[|newRoot|..] + rest, p, allowed)
      ensures Reaches(fs, [], launcher, p, allowed)
    {
      LinkLeads(fs, allowed, root, at, current, base, name, t, rest, newRoot, newAt, p);
    }
  }

  /** The end of a walk: final and launcher name the same trusted executable. */
  ghost predicate SameExecutable(fs: FileSystem, owners: set<Owner>, allowed: set<Path>, launcher: Path, final: Path,
                                 p: Path) {
    && Reaches(fs, [], launcher, p, allowed)
    && Reaches(fs, [], final, p, allowed)
    && p in fs && TrustedExecutable(fs[p], owners)
  }

  lemma {:induction false} TracksFinal(fs: FileSystem, allowed: set<Path>, launcher: Path, root: Path, at: Path,
                                       current: Path, name: Name)
    requires Tracks(fs, allowed, launcher, root, at, current, [name]) && Plain(name)
    requires var here := at + current[|root|..] + [name]; here in fs && fs[here].kind.Regular?
    ensures var here := at + current[|root|..] + [name];
            Reaches(fs, [], launcher, here, allowed) && Reaches(fs, [], current + [name], here, allowed)
    ensures at == root ==> at + current[|root|..] + [name] == current + [name]
  {
    var base := at + current[|root|..];
    StepFinal(fs, base, name, allowed);
    Compose(fs, [], current, base, [name], base + [name], allowed);
    assert root + current[|root|..] == current;
  }

  datatype Transition = Transition(sourceRoot: Path, link: Path, target: Path)

  datatype Row = Row(path: Path, node: Node)

  datatype Result =
    | Attested(final: Path, chain: seq<Row>, crossings: seq<Transition>)
    | Refused(reason: Reason)

  datatype Reason =
    | Declaration | OutsideRoots | UnsafeRoot | UnsafeComponent | Unavailable | UntrustedOwner
    | CyclicOrDeep | BadTarget | Escapes | UndeclaredCrossing | UnsafeDirectory | NoExecutable | BadExecutable

  function SelectedRoot(roots: seq<Path>, candidate: Path): (r: Option<Path>)
    ensures r.Some? ==> r.value in roots && Under(candidate, r.value)
    ensures r.None? ==> forall root :: root in roots ==> !Under(candidate, root)
  {
    if roots == [] then None
    else if Under(candidate, roots[0]) then Some(roots[0])
    else SelectedRoot(roots[1..], candidate)
  }

  predicate Separate(roots: seq<Path>) {
    forall i, j :: 0 <= i < j < |roots| ==> !Under(roots[i], roots[j]) && !Under(roots[j], roots[i])
  }

  predicate LinkDeclared(roots: seq<Path>, link: Transition) {
    && Canonical(link.sourceRoot) && Canonical(link.link) && Canonical(link.target)
    && link.sourceRoot in roots && Under(link.link, link.sourceRoot)
    && SelectedRoot(roots, link.target).Some?
    && SelectedRoot(roots, link.target).value != link.sourceRoot
  }

  predicate DistinctPaths(paths: seq<Path>) {
    forall i, j :: 0 <= i < j < |paths| ==> paths[i] != paths[j]
  }

  predicate Declared(launcher: Path, roots: seq<Path>, ancestors: seq<Path>, links: seq<Transition>) {
    && Canonical(launcher)
    && roots != [] && (forall r :: r in roots ==> Canonical(r)) && Separate(roots)
    && (forall a :: a in ancestors ==> Canonical(a)) && DistinctPaths(ancestors)
    && (forall a :: a in ancestors ==> exists r :: r in roots && Under(r, a))
    && (forall l :: l in links ==> LinkDeclared(roots, l))
    && (forall i, j :: 0 <= i < j < |links| ==> links[i] != links[j])
  }

  /** What a declaration must be: separate roots, ancestors above them, links from one root to another, none twice. */
  lemma {:induction false} DeclaredMeans(launcher: Path, roots: seq<Path>, ancestors: seq<Path>, links: seq<Transition>)
    requires Declared(launcher, roots, ancestors, links)
    ensures forall i, j :: 0 <= i < j < |roots| ==> !(roots[i] <= roots[j]) && !(roots[j] <= roots[i])
    ensures forall a :: a in ancestors ==> exists r :: r in roots && a <= r
    ensures forall l :: l in links ==>
              l.sourceRoot in roots && l.sourceRoot <= l.link
              && exists r :: r in roots && r != l.sourceRoot && r <= l.target
    ensures forall i, j :: 0 <= i < j < |links| ==> links[i] != links[j]
    ensures forall i, j :: 0 <= i < j < |ancestors| ==> ancestors[i] != ancestors[j]
    ensures forall path, i :: path in [launcher] + roots + ancestors && 0 <= i < |path| ==>
              path[i] != "" && path[i] != "." && path[i] != ".."
  {
    forall path, i | path in [launcher] + roots + ancestors && 0 <= i < |path|
      ensures path[i] != "" && path[i] != "." && path[i] != ".."
    {
      assert Canonical(path);
    }
    forall l | l in links
      ensures l.sourceRoot <= l.link && exists r :: r in roots && r != l.sourceRoot && r <= l.target
    {
      assert LinkDeclared(roots, l);
      assert Under(l.target, SelectedRoot(roots, l.target).value);
    }
  }

  predicate RowTrusted(row: Row, owners: set<Owner>) {
    row.node.owner in owners && (row.node.kind.Directory? ==> !row.node.writable)
  }

  predicate ChainTrusted(chain: seq<Row>, owners: set<Owner>) {
    forall i :: 0 <= i < |chain| ==> RowTrusted(chain[i], owners)
  }

  predicate CrossingsDeclared(crossings: seq<Transition>, links: seq<Transition>) {
    forall i :: 0 <= i < |crossings| ==> crossings[i] in links
  }

  lemma {:induction false} ChainGrows(chain: seq<Row>, row: Row, owners: set<Owner>)
    requires ChainTrusted(chain, owners) && RowTrusted(row, owners)
    ensures ChainTrusted(chain + [row], owners)
  {
  }

  /** A path inside root that meets no link and nothing to object to. */
  predicate Straight(fs: FileSystem, steps: nat, owners: set<Owner>, root: Path, launcher: Path) {
    && Under(launcher, root) && |root| < |launcher|
    && (forall i :: |root| < i < |launcher| ==> TrustedDirectory(fs, steps, owners, launcher[..i]))
    && Lstat(fs, steps, launcher).Some? && TrustedExecutable(Lstat(fs, steps, launcher).value, owners)
  }

  /** attest_root: the declared ancestors of a root and the root itself, each at most once. */
  method AttestRoot(fs: FileSystem, steps: nat, owners: set<Owner>, ancestors: seq<Path>, root: Path,
                    attested: set<Path>, chain: seq<Row>)
    returns (ok: bool, newAttested: set<Path>, newChain: seq<Row>)
    requires forall d :: d in attested ==> TrustedDirectory(fs, steps, owners, d)
    requires ChainTrusted(chain, owners)
    ensures ok <==> RootAttested(fs, steps, owners, ancestors, root)
    ensures ok ==> forall d :: d in newAttested ==> TrustedDirectory(fs, steps, owners, d)
    ensures ok ==> ChainTrusted(newChain, owners)
  {
    var directories := ancestors + [root];
    newAttested, newChain := attested, chain;
    for i := 0 to |directories|
      invariant forall d :: d in newAttested ==> TrustedDirectory(fs, steps, owners, d)
      invariant ChainTrusted(newChain, owners)
      invariant forall j :: 0 <= j < i && Under(root, directories[j]) ==>
                  TrustedDirectory(fs, steps, owners, directories[j])
    {
      var directory := directories[i];
      assert i < |ancestors| ==> directory in ancestors;
      if !Under(root, directory) || directory in newAttested {
        continue;
      }
      var info := Lstat(fs, steps, directory);
      if info.None? || info.value.owner !in owners || !info.value.kind.Directory? || info.value.writable {
        return false, newAttested, newChain;
      }
      newAttested := newAttested + {directory};
      ChainGrows(newChain, Row(directory, info.value), owners);
      newChain := newChain + [Row(directory, info.value)];
    }
    assert directories[|ancestors|] == root;
    forall a | a in ancestors && Under(root, a) ensures TrustedDirectory(fs, steps, owners, a) {
      var j :| 0 <= j < |ancestors| && ancestors[j] == a;
      assert directories[j] == a;
    }
    ok := true;
  }

  lemma {:induction false} PrefixesNest(a: Path, b: Path, path: Path)
    requires a <= path && b <= path
    ensures a <= b || b <= a
  {
    assert a == path[..|a|] && b == path[..|b|];
  }

  lemma {:induction false} RootIsUnique(roots: seq<Path>, root: Path, path: Path)
    requires Separate(roots) && root in roots && Under(path, root)
    ensures SelectedRoot(roots, path) == Some(root)
  {
    var r := SelectedRoot(roots, path).value;
    PrefixesNest(root, r, path);
    var i :| 0 <= i < |roots| && roots[i] == root;
    var j :| 0 <= j < |roots| && roots[j] == r;
  }

  predicate NoDots(parts: seq<Name>) {
    forall i :: 0 <= i < |parts| ==> parts[i] != "." && parts[i] != ".."
  }

  /** Everything a walk depends on besides where it stands. */
  datatype World = World(fs: FileSystem, steps: nat, owners: set<Owner>, roots: seq<Path>, ancestors: seq<Path>,
                         links: seq<Transition>)

  /** A link may be followed: it stays under its root, or is declared, last, and leads to a root that is attested. */
  predicate LinkOk(w: World, root: Path, link: Path, target: Target, last: bool) {
    var combined := Combined(link[..Max(0, |link| - 1)], target);
    var targetRoot := SelectedRoot(w.roots, combined);
    && target.tidy && NoDots(target.parts) && targetRoot.Some?
    && (targetRoot.value == root
        || (&& last && Transition(root, link, combined) in w.links
            && RootAttested(w.fs, w.steps, w.owners, w.ancestors, targetRoot.value)))
  }

  /**
   Where the names lead by trusted directories and links that may be followed, at most eight of them and
   none twice; None when a name is not there, not owned as expected, or not to be passed.
   */
  function Leads(w: World, root: Path, current: Path, pending: seq<Name>, followed: set<(int, int)>): Option<Row>
    decreases MAX_SYMLINKS - |followed|, |pending|
  {
    if pending == [] || !Plain(pending[0]) then None else
      var here, rest := current + [pending[0]], pending[1..];
      var info := Lstat(w.fs, w.steps, here);
      if info.None? || info.value.owner !in w.owners then None else
        var node := info.value;
        match node.kind
        case Symlink(target) =>
          if node.identity in followed || |followed| >= MAX_SYMLINKS
              || !LinkOk(w, root, here, target, rest == []) then None
          else
            var combined := Combined(here[..Max(0, |here| - 1)], target);
            var newRoot := SelectedRoot(w.roots, combined).value;
            Leads(w, newRoot, newRoot, combined[|newRoot|..] + rest, followed + {node.identity})
        case _ =>
          if rest == [] then Some(Row(here, node))
          else if !node.kind.Directory? || node.writable then None
          else Leads(w, root, here, rest, followed)
  }

  /** Where a link that the walk has reached leads. */
  lemma {:induction false} LeadsAtLink(w: World, root: Path, current: Path, component: Name, rest: seq<Name>,
                                       node: Node, followed: set<(int, int)>)
    requires Plain(component) && node.owner in w.owners && node.kind.Symlink?
    requires Lstat(w.fs, w.steps, current + [component]) == Some(node)
    ensures var combined := Combined(current, node.kind.target);
            Leads(w, root, current, [component] + rest, followed)
            == if node.identity in followed || |followed| >= MAX_SYMLINKS
                  || !LinkOk(w, root, current + [component], node.kind.target, rest == []) then None
               else
                 var newRoot := SelectedRoot(w.roots, combined).value;
                 Leads(w, newRoot, newRoot, combined[|newRoot|..] + rest, followed + {node.identity})
  {
    var here, pending := current + [component], [component] + rest;
    assert here[..Max(0, |here| - 1)] == current && pending[0] == component && pending[1..] == rest;
  }

  /** One symlink of the walk: its text is checked, the root it leads to selected and attested. */
  method FollowLink(fs: FileSystem, steps: nat, ghost launcher: Path, roots: seq<Path>, ancestors: seq<Path>,
                    links: seq<Transition>, owners: set<Owner>, root: Path, ghost at: Path, current: Path,
                    component: Name, node: Node, rest: seq<Name>, attested: set<Path>, chain: seq<Row>,
                    crossings: seq<Transition>)
    returns (refusal: Option<Reason>, newRoot: Path, newAttested: set<Path>, newChain: seq<Row>,
             newCrossings: seq<Transition>, ghost newAt: Path)
    requires Separate(roots) && root in roots && forall r :: r in roots ==> Canonical(r)
    requires Tracks(fs, Allowed(fs, steps, owners, roots, ancestors), launcher, root, at, current, [component] + rest)
    requires Plain(component) && node.kind.Symlink? && node.owner in owners
    requires var here := at + current[|root|..] + [component]; here in fs && fs[here] == node
    requires AllDeclared(roots, ancestors) ==> at == root
    requires CrossingsDeclared(crossings, links)
    requires forall d :: d in attested ==> TrustedDirectory(fs, steps, owners, d)
    requires ChainTrusted(chain, owners)
    ensures refusal.None? <==>
              LinkOk(World(fs, steps, owners, roots, ancestors, links), root, current + [component],
                     node.kind.target, rest == [])
    ensures refusal.None? ==> SelectedRoot(roots, Combined(current, node.kind.target)) == Some(newRoot)
    ensures refusal.None? ==> newRoot in roots && Under(Combined(current, node.kind.target), newRoot)
    ensures refusal.None? ==> CrossingsDeclared(newCrossings, links) && |newCrossings| <= |crossings| + 1
    ensures refusal.None? && newCrossings == [] ==> crossings == [] && newRoot == root
    ensures refusal.None? ==>
              Tracks(fs, Allowed(fs, steps, owners, roots, ancestors), launcher, newRoot, newAt, newRoot,
                                     Combined(current, node.kind.target)[|newRoot|..] + rest)
    ensures refusal.None? && AllDeclared(roots, ancestors) ==> newAt == newRoot
    ensures refusal.None? ==> forall d :: d in newAttested ==> TrustedDirectory(fs, steps, owners, d)
    ensures refusal.None? ==> ChainTrusted(newChain, owners)
  {
    var target := node.kind.target;
    newRoot, newAttested, newChain, newCrossings, newAt := root, attested, chain, crossings, at;
    if !target.tidy || !NoDots(target.parts) {
      return Some(BadTarget), newRoot, newAttested, newChain, newCrossings, newAt;
    }
    var candidate := current + [component];
    assert candidate[..|candidate| - 1] == current;
    ChainGrows(newChain, Row(candidate, node), owners);
    newChain := newChain + [Row(candidate, node)];
    var combined := Combined(current, target);
    var targetRoot := SelectedRoot(roots, combined);
    if targetRoot.None? {
      return Some(Escapes), newRoot, newAttested, newChain, newCrossings, newAt;
    }
    if !target.absolute {
      RootIsUnique(roots, root, combined);
    }
    newRoot := targetRoot.value;
    if newRoot != root {
      if rest != [] || Transition(root, candidate, combined) !in links {
        return Some(UndeclaredCrossing), newRoot, newAttested, newChain, newCrossings, newAt;
      }
      var ok;
      ok, newAttested, newChain := AttestRoot(fs, steps, owners, ancestors, newRoot, newAttested, newChain);
      if !ok {
        return Some(UnsafeRoot), newRoot, newAttested, newChain, newCrossings, newAt;
      }
      newCrossings := crossings + [Transition(root, candidate, combined)];
      newAt := RootReached(fs, steps, owners, roots, ancestors, newRoot);
    }
    TracksLink(fs, Allowed(fs, steps, owners, roots, ancestors), launcher, root, at, current,
               at + current[|root|..], component, target, rest, newRoot, newAt);
    refusal := None;
  }

  // ----- what is accepted, as a list of hops -----

  /** One link of a route: the names up to and with it, the names after it, the link, and the root it leads to. */
  datatype Hop = Hop(names: seq<Name>, rest: seq<Name>, node: Node, root: Path)

  /** From current on, names pass trusted directories to an object with an expected owner. */
  predicate Stretch(w: World, current: Path, names: seq<Name>) {
    && names != [] && Canonical(names)
    && (forall i :: 0 < i < |names| ==> TrustedDirectory(w.fs, w.steps, w.owners, current + names[..i]))
    && Lstat(w.fs, w.steps, current + names).Some?
    && Lstat(w.fs, w.steps, current + names).value.owner in w.owners
  }

  /** Where a link's text leads: from the top, or from the directory the link is in. */
  function TextLeads(link: Path, target: Target): Path
    requires link != []
  {
    if target.absolute then target.parts else link[..|link| - 1] + target.parts
  }

  /**
   The link has canonical text; where that leads lies under the same root, or the link is the last name,
   declared as a crossing, and leads to a root that is attested.
   */
  predicate HopAllowed(w: World, root: Path, link: Path, target: Target, hop: Hop)
    requires link != []
  {
    && target.tidy && (forall i :: 0 <= i < |target.parts| ==> target.parts[i] != "." && target.parts[i] != "..")
    && hop.root in w.roots && Under(TextLeads(link, target), hop.root)
    && (hop.root == root
        || (&& hop.rest == [] && Transition(root, link, TextLeads(link, target)) in w.links
            && RootAttested(w.fs, w.steps, w.owners, w.ancestors, hop.root)))
  }

  /** The pending names reach this link, and it may be followed. */
  predicate FirstHop(w: World, root: Path, current: Path, pending: seq<Name>, hop: Hop) {
    && pending == hop.names + hop.rest && Stretch(w, current, hop.names)
    && Lstat(w.fs, w.steps, current + hop.names) == Some(hop.node) && hop.node.kind.Symlink?
    && HopAllowed(w, root, current + hop.names, hop.node.kind.target, hop)
  }

  /** What is pending at the root that the link leads to. */
  function AfterHop(w: World, root: Path, current: Path, pending: seq<Name>, hop: Hop): seq<Name>
    requires FirstHop(w, root, current, pending, hop)
  {
    TextLeads(current + hop.names, hop.node.kind.target)[|hop.root|..] + hop.rest
  }

  /** The pending names lead over these links to a trusted executable at final. */
  predicate Route(w: World, root: Path, current: Path, pending: seq<Name>, hops: seq<Hop>, final: Path)
    decreases |hops|
  {
    if hops == [] then
      && Stretch(w, current, pending) && final == current + pending
      && TrustedExecutable(Lstat(w.fs, w.steps, final).value, w.owners)
    else
      var hop := hops[0];
      && FirstHop(w, root, current, pending, hop)
      && Route(w, hop.root, hop.root, AfterHop(w, root, current, pending, hop), hops[1..], final)
  }

  /** No link is met twice. */
  predicate Fresh(hops: seq<Hop>, followed: set<(int, int)>) {
    && (forall i :: 0 <= i < |hops| ==> hops[i].node.identity !in followed)
    && (forall i, j :: 0 <= i < j < |hops| ==> hops[i].node.identity != hops[j].node.identity)
  }

  /** From its root, by at most eight distinct links, the launcher leads to a trusted executable at final. */
  ghost predicate Routed(w: World, root: Path, launcher: Path, final: Path)
    requires Under(launcher, root)
  {
    exists hops :: |hops| <= 8 && Fresh(hops, {}) && Route(w, root, root, launcher[|root|..], hops, final)
  }

  /** What stands at the end of a route. */
  lemma {:induction false} RouteEnds(w: World, root: Path, current: Path, pending: seq<Name>, hops: seq<Hop>,
                                     final: Path)
    requires Route(w, root, current, pending, hops, final)
    ensures match Lstat(w.fs, w.steps, final)
            case None => false
            case Some(node) =>
              && node.kind.Regular? && node.owner in w.owners && !node.writable && node.executable
              && node.links == 1 && 0 < node.size <= 128 * 1024 * 1024
    decreases |hops|
  {
    if hops != [] {
      var hop := hops[0];
      RouteEnds(w, hop.root, hop.root, AfterHop(w, root, current, pending, hop), hops[1..], final);
    }
  }

  /** The first of several names of a stretch is a trusted directory, which the walk passes. */
  lemma {:induction false} StretchStep(w: World, root: Path, current: Path, names: seq<Name>, rest: seq<Name>,
                                       followed: set<(int, int)>)
    requires Stretch(w, current, names) && |names| > 1
    ensures Stretch(w, current + [names[0]], names[1..])
    ensures (current + [names[0]]) + names[1..] == current + names
    ensures Leads(w, root, current, names + rest, followed)
            == Leads(w, root, current + [names[0]], names[1..] + rest, followed)
  {
    var here, more := current + [names[0]], names[1..];
    assert here + more == current + names && here == current + names[..1];
    forall i | 0 < i < |more| ensures TrustedDirectory(w.fs, w.steps, w.owners, here + more[..i]) {
      assert here + more[..i] == current + names[..i + 1];
    }
    assert (names + rest)[1..] == more + rest;
  }

  /** The link itself. */
  lemma {:induction false} LinkStep(w: World, root: Path, current: Path, name: Name, rest: seq<Name>, hop: Hop,
                                    followed: set<(int, int)>)
    requires RootsSound(w) && Plain(name) && hop.rest == rest
    requires Lstat(w.fs, w.steps, current + [name]) == Some(hop.node) && hop.node.owner in w.owners
    requires hop.node.kind.Symlink? && HopAllowed(w, root, current + [name], hop.node.kind.target, hop)
    requires hop.node.identity !in followed && |followed| < MAX_SYMLINKS
    ensures Leads(w, root, current, [name] + rest, followed)
            == Leads(w, hop.root, hop.root, TextLeads(current + [name], hop.node.kind.target)[|hop.root|..] + rest,
                     followed + {hop.node.identity})
  {
    var here := current + [name];
    assert ([name] + rest)[0] == name && ([name] + rest)[1..] == rest && here[..|here| - 1] == current;
    RootIsUnique(w.roots, hop.root, TextLeads(here, hop.node.kind.target));
  }

  /** A stretch up to a link that may be followed. */
  lemma {:induction false} HopLeads(w: World, root: Path, current: Path, hop: Hop, names: seq<Name>,
                                    followed: set<(int, int)>)
    requires RootsSound(w) && Stretch(w, current, names) && Lstat(w.fs, w.steps, current + names) == Some(hop.node)
    requires hop.node.kind.Symlink? && HopAllowed(w, root, current + names, hop.node.kind.target, hop)
    requires hop.node.identity !in followed && |followed| < MAX_SYMLINKS
    ensures Leads(w, root, current, names + hop.rest, followed)
            == Leads(w, hop.root, hop.root, TextLeads(current + names, hop.node.kind.target)[|hop.root|..] + hop.rest,
                     followed + {hop.node.identity})
    decreases |names|
  {
    if |names| > 1 {
      StretchStep(w, root, current, names, hop.rest, followed);
      HopLeads(w, root, current + [names[0]], hop, names[1..], followed);
    } else {
      assert names == [names[0]];
      LinkStep(w, root, current, names[0], hop.rest, hop, followed);
    }
  }

  /** A stretch to the end. */
  lemma {:induction false} StretchLeads(w: World, root: Path, current: Path, names: seq<Name>,
                                        followed: set<(int, int)>)
    requires Stretch(w, current, names) && !Lstat(w.fs, w.steps, current + names).value.kind.Symlink?
    ensures Leads(w, root, current, names, followed)
            == Some(Row(current + names, Lstat(w.fs, w.steps, current + names).value))
    decreases |names|
  {
    assert names + [] == names;
    if |names| > 1 {
      StretchStep(w, root, current, names, [], followed);
      assert names[1..] + [] == names[1..];
      StretchLeads(w, root, current + [names[0]], names[1..], followed);
    } else {
      assert names == [names[0]];
    }
  }

  /** Every route within the limits is walked to its end. */
  lemma {:induction false} RouteLeads(w: World, root: Path, current: Path, pending: seq<Name>, hops: seq<Hop>,
                                      final: Path, followed: set<(int, int)>)
    requires RootsSound(w) && Route(w, root, current, pending, hops, final)
    requires Fresh(hops, followed) && |followed| + |hops| <= MAX_SYMLINKS
    ensures Lstat(w.fs, w.steps, final).Some?
    ensures TrustedExecutable(Lstat(w.fs, w.steps, final).value, w.owners)
    ensures Leads(w, root, current, pending, followed) == Some(Row(final, Lstat(w.fs, w.steps, final).value))
    decreases |hops|
  {
    if hops == [] {
      StretchLeads(w, root, current, pending, followed);
    } else {
      var hop, more := hops[0], followed + {hops[0].node.identity};
      HopLeads(w, root, current, hop, hop.names, followed);
      assert Fresh(hops[1..], more);
      RouteLeads(w, hop.root, hop.root, AfterHop(w, root, current, pending, hop), hops[1..], final, more);
    }
  }

  /** One more trusted directory before a route. */
  lemma {:induction false} RouteAfter(w: World, root: Path, current: Path, name: Name, rest: seq<Name>, hops: seq<Hop>,
                                      final: Path)
    returns (longer: seq<Hop>)
    requires Plain(name) && TrustedDirectory(w.fs, w.steps, w.owners, current + [name])
    requires Route(w, root, current + [name], rest, hops, final)
    ensures Route(w, root, current, [name] + rest, longer, final)
    ensures |longer| == |hops| && forall i :: 0 <= i < |hops| ==> longer[i].node == hops[i].node
  {
    if hops == [] {
      StretchAfter(w, current, name, rest);
      longer := [];
    } else {
      longer := [hops[0].(names := [name] + hops[0].names)] + hops[1..];
      HopAfter(w, root, current, name, rest, hops[0]);
      assert longer[1..] == hops[1..];
    }
  }

  lemma {:induction false} HopAfter(w: World, root: Path, current: Path, name: Name, rest: seq<Name>, hop: Hop)
    requires Plain(name) && TrustedDirectory(w.fs, w.steps, w.owners, current + [name])
    requires FirstHop(w, root, current + [name], rest, hop)
    ensures var longer := hop.(names := [name] + hop.names);
            && FirstHop(w, root, current, [name] + rest, longer)
            && AfterHop(w, root, current, [name] + rest, longer) == AfterHop(w, root, current + [name], rest, hop)
  {
    StretchAfter(w, current, name, hop.names);
    assert [name] + (hop.names + hop.rest) == ([name] + hop.names) + hop.rest;
  }

  lemma {:induction false} StretchAfter(w: World, current: Path, name: Name, names: seq<Name>)
    requires Plain(name) && TrustedDirectory(w.fs, w.steps, w.owners, current + [name])
    requires Stretch(w, current + [name], names)
    ensures Stretch(w, current, [name] + names) && current + ([name] + names) == current + [name] + names
  {
    var more := [name] + names;
    assert current + more == current + [name] + names;
    forall i | 0 < i < |more| ensures TrustedDirectory(w.fs, w.steps, w.owners, current + more[..i]) {
      assert current + more[..i] == current + [name] + names[..i - 1];
    }
  }

  /** One link before a route. */
  lemma {:induction false} RouteAfterLink(w: World, root: Path, current: Path, name: Name, rest: seq<Name>, node: Node,
                                          newRoot: Path, hops: seq<Hop>, final: Path)
    returns (longer: seq<Hop>)
    requires Plain(name) && Lstat(w.fs, w.steps, current + [name]) == Some(node) && node.owner in w.owners
    requires node.kind.Symlink? && LinkOk(w, root, current + [name], node.kind.target, rest == [])
    requires SelectedRoot(w.roots, TextLeads(current + [name], node.kind.target)) == Some(newRoot)
    requires Route(w, newRoot, newRoot, TextLeads(current + [name], node.kind.target)[|newRoot|..] + rest, hops, final)
    ensures Route(w, root, current, [name] + rest, longer, final)
    ensures longer == [Hop([name], rest, node, newRoot)] + hops
  {
    longer := [Hop([name], rest, node, newRoot)] + hops;
    assert longer[1..] == hops;
  }

  lemma {:induction false} FreshFirst(hop: Hop, others: seq<Hop>, followed: set<(int, int)>)
    requires hop.node.identity !in followed && Fresh(others, followed + {hop.node.identity})
    ensures Fresh([hop] + others, followed)
  {
    forall i | 0 < i < |others| + 1
      ensures ([hop] + others)[i].node.identity !in followed + {hop.node.identity}
    {
      assert ([hop] + others)[i] == others[i - 1];
    }
  }

  /** What is walked to a trusted executable is a route within the limits. */
  lemma {:induction false} LeadsRoute(w: World, root: Path, current: Path, pending: seq<Name>,
                                      followed: set<(int, int)>, final: Row)
    returns (hops: seq<Hop>)
    requires Leads(w, root, current, pending, followed) == Some(final) && TrustedExecutable(final.node, w.owners)
    ensures Route(w, root, current, pending, hops, final.path)
    ensures Fresh(hops, followed) && |followed| + |hops| <= Max(MAX_SYMLINKS, |followed|)
    decreases MAX_SYMLINKS - |followed|, |pending|
  {
    var name, rest := pending[0], pending[1..];
    var here := current + [name];
    var node := Lstat(w.fs, w.steps, here).value;
    assert pending == [name] + rest;
    if node.kind.Symlink? {
      LeadsAtLink(w, root, current, name, rest, node, followed);
      assert here[..|here| - 1] == current;
      var combined := TextLeads(here, node.kind.target);
      var newRoot := SelectedRoot(w.roots, combined).value;
      var others := LeadsRoute(w, newRoot, newRoot, combined[|newRoot|..] + rest, followed + {node.identity}, final);
      hops := RouteAfterLink(w, root, current, name, rest, node, newRoot, others, final.path);
      FreshFirst(hops[0], others, followed);
    } else if rest == [] {
      hops := [];
      assert current + pending == here;
    } else {
      var others := LeadsRoute(w, root, here, rest, followed, final);
      hops := RouteAfter(w, root, current, name, rest, others, final.path);
    }
  }

  /** What the loop has found when it ends: the last object, its path, and where it is. */
  datatype Walked = Walked(final: Row, chain: seq<Row>, crossings: seq<Transition>) | Stopped(reason: Reason)

  /** The path lies under a root, and is the resolved path exactly when that root is its own resolved path. */
  ghost predicate RootDecides(fs: FileSystem, roots: seq<Path>, allowed: set<Path>, final: Path, end: Path) {
    exists root, at ::
      root in roots && Under(final, root) && Reaches(fs, [], root, at, allowed) && (end == final <==> at == root)
  }

  ghost predicate Found(fs: FileSystem, owners: set<Owner>, roots: seq<Path>, allowed: set<Path>, launcher: Path,
                        final: Row, end: Path) {
    && RootDecides(fs, roots, allowed, final.path, end)
    && end in fs && fs[end] == final.node && final.node.owner in owners
    && (final.node.kind.Regular? ==>
          Reaches(fs, [], launcher, end, allowed) && Reaches(fs, [], final.path, end, allowed))
  }

  lemma {:induction false} EndIsFinal(fs: FileSystem, roots: seq<Path>, allowed: set<Path>, root: Path, at: Path,
                                      current: Path, component: Name)
    requires root in roots && Under(current, root) && Reaches(fs, [], root, at, allowed)
    ensures RootDecides(fs, roots, allowed, current + [component], at + current[|root|..] + [component])
  {
    var tail := current[|root|..] + [component];
    var final, end := current + [component], at + current[|root|..] + [component];
    assert final == root + tail && end == at + tail;
    assert Under(final, root);
    if end == final {
      assert |at| == |root|;
      assert at == end[..|at|] == final[..|root|] == root;
    }
  }

  /** The last name of the walk: what was found, and where it is. */
  lemma {:induction false} LastFound(fs: FileSystem, steps: nat, owners: set<Owner>, roots: seq<Path>,
                                     ancestors: seq<Path>, launcher: Path,
                  root: Path, at: Path, current: Path, pending: seq<Name>, component: Name, node: Node)
    returns (end: Path)
    requires Tracks(fs, Allowed(fs, steps, owners, roots, ancestors), launcher, root, at, current, pending)
    requires root in roots && pending == [component] && Plain(component)
    requires Lstat(fs, steps, current + [component]) == Some(node) && node.owner in owners
    ensures Found(fs, owners, roots, Allowed(fs, steps, owners, roots, ancestors), launcher,
                  Row(current + [component], node), end)
    ensures at == root ==> end == current + [component]
  {
    var allowed := Allowed(fs, steps, owners, roots, ancestors);
    CandidateLocated(fs, steps, allowed, launcher, root, at, current, pending, component);
    end := at + current[|root|..] + [component];
    EndIsFinal(fs, roots, allowed, root, at, current, component);
    if node.kind.Regular? {
      TracksFinal(fs, allowed, launcher, root, at, current, component);
    }
    assert root + current[|root|..] == current;
  }

  /** A trusted directory of the walk is passed. */
  lemma {:induction false} DirectoryPassed(fs: FileSystem, steps: nat, owners: set<Owner>, roots: seq<Path>,
                                           ancestors: seq<Path>, launcher: Path,
                        root: Path, at: Path, current: Path, component: Name, rest: seq<Name>, node: Node)
    requires Tracks(fs, Allowed(fs, steps, owners, roots, ancestors), launcher, root, at, current, [component] + rest)
    requires Plain(component) && Lstat(fs, steps, current + [component]) == Some(node)
    requires node.owner in owners && node.kind.Directory? && !node.writable
    ensures Tracks(fs, Allowed(fs, steps, owners, roots, ancestors), launcher, root, at, current + [component], rest)
  {
    var allowed := Allowed(fs, steps, owners, roots, ancestors);
    CandidateLocated(fs, steps, allowed, launcher, root, at, current, [component] + rest, component);
    assert at + current[|root|..] + [component] in Safe(fs, owners);
    TracksDirectory(fs, allowed, launcher, root, at, current, component, rest);
  }

  /** What the walk carries along: attested directories, rows seen, links followed, roots crossed. */
  datatype Baggage = Baggage(attested: set<Path>, chain: seq<Row>, followed: set<(int, int)>,
                             crossings: seq<Transition>)

  predicate BaggageSound(w: World, b: Baggage) {
    && |b.crossings| <= |b.followed| <= MAX_SYMLINKS
    && (forall d :: d in b.attested ==> TrustedDirectory(w.fs, w.steps, w.owners, d))
    && ChainTrusted(b.chain, w.owners) && CrossingsDeclared(b.crossings, w.links)
  }

  function AllowedIn(w: World): set<Path> {
    Allowed(w.fs, w.steps, w.owners, w.roots, w.ancestors)
  }

  predicate RootsSound(w: World) {
    Separate(w.roots) && forall r :: r in w.roots ==> Canonical(r)
  }

  /** Where the walk stands: in step with ordinary resolution of the launcher, and physically at a known place. */
  ghost predicate Standing(w: World, launcher: Path, firstRoot: Path, root: Path, at: Path, current: Path,
                           pending: seq<Name>, b: Baggage) {
    && RootsSound(w) && BaggageSound(w, b)
    && root in w.roots && (b.crossings == [] ==> root == firstRoot)
    && (AllDeclared(w.roots, w.ancestors) ==> at == root)
    && Tracks(w.fs, AllowedIn(w), launcher, root, at, current, pending)
  }

  /** One name of the walk: refused, the last one, or passed. */
  datatype Move = Halt(reason: Reason) | Last(final: Row) | Go(root: Path, current: Path, pending: seq<Name>)

  method StepLinkOf(w: World, ghost launcher: Path, ghost firstRoot: Path, root: Path, ghost at: Path, current: Path,
                    component: Name, rest: seq<Name>, node: Node, b: Baggage)
    returns (move: Move, ghost newAt: Path, c: Baggage)
    requires Standing(w, launcher, firstRoot, root, at, current, [component] + rest, b) && Plain(component)
    requires Lstat(w.fs, w.steps, current + [component]) == Some(node) && node.owner in w.owners && node.kind.Symlink?
    ensures !move.Last?
    ensures move.Halt? ==> Leads(w, root, current, [component] + rest, b.followed) == None
    ensures move.Go? ==> |c.followed| == |b.followed| + 1
                         && Standing(w, launcher, firstRoot, move.root, newAt, move.current, move.pending, c)
                         && Leads(w, move.root, move.current, move.pending, c.followed)
                            == Leads(w, root, current, [component] + rest, b.followed)
  {
    newAt, c := at, b;
    LeadsAtLink(w, root, current, component, rest, node, b.followed);
    CandidateLocated(w.fs, w.steps, AllowedIn(w), launcher, root, at, current, [component] + rest, component);
    if node.identity in b.followed || |b.followed| >= MAX_SYMLINKS {
      return Halt(CyclicOrDeep), newAt, c;
    }
    var refusal, newRoot, attested, chain, crossings;
    refusal, newRoot, attested, chain, crossings, newAt := FollowLink(
      w.fs, w.steps, launcher, w.roots, w.ancestors, w.links, w.owners, root, at, current,
      component, node, rest, b.attested, b.chain, b.crossings);
    if refusal.Some? {
      return Halt(refusal.value), newAt, c;
    }
    c := Baggage(attested, chain, b.followed + {node.identity}, crossings);
    move := Go(newRoot, newRoot, Combined(current, node.kind.target)[|newRoot|..] + rest);
  }

  method StepOf(w: World, ghost launcher: Path, ghost firstRoot: Path, root: Path, ghost at: Path, current: Path,
                pending: seq<Name>, b: Baggage)
    returns (move: Move, ghost newAt: Path, c: Baggage, ghost end: Path)
    requires Standing(w, launcher, firstRoot, root, at, current, pending, b) && pending != []
    ensures match move
            case Halt(_) => Leads(w, root, current, pending, b.followed) == None
            case Last(final) =>
              && Leads(w, root, current, pending, b.followed) == Some(final) && c == b && Under(final.path, root)
              && Found(w.fs, w.owners, w.roots, AllowedIn(w), launcher, final, end)
              && (AllDeclared(w.roots, w.ancestors) ==> end == final.path)
            case Go(newRoot, newCurrent, newPending) =>
              && Standing(w, launcher, firstRoot, newRoot, newAt, newCurrent, newPending, c)
              && Leads(w, newRoot, newCurrent, newPending, c.followed) == Leads(w, root, current, pending, b.followed)
              && (|c.followed| > |b.followed| || (c.followed == b.followed && |newPending| < |pending|))
  {
    newAt, c, end := at, b, [];
    var component, rest := pending[0], pending[1..];
    assert pending == [component] + rest;
    if !Plain(component) {
      return Halt(UnsafeComponent), newAt, c, end;
    }
    var here := current + [component];
    var info := Lstat(w.fs, w.steps, here);
    if info.None? || info.value.owner !in w.owners {
      return Halt(if info.None? then Unavailable else UntrustedOwner), newAt, c, end;
    }
    var node := info.value;
    if node.kind.Symlink? {
      move, newAt, c := StepLinkOf(w, launcher, firstRoot, root, at, current, component, rest, node, b);
    } else if rest == [] {
      end := LastFound(w.fs, w.steps, w.owners, w.roots, w.ancestors, launcher, root, at, current, pending, component,
                       node);
      move := Last(Row(here, node));
    } else if !node.kind.Directory? || node.writable {
      move := Halt(UnsafeDirectory);
    } else {
      ChainGrows(b.chain, Row(here, node), w.owners);
      DirectoryPassed(w.fs, w.steps, w.owners, w.roots, w.ancestors, launcher, root, at, current, component, rest,
                      node);
      c := b.(chain := b.chain + [Row(here, node)]);
      move := Go(root, here, rest);
    }
  }

  /** The loop of the walk, from an attested root on: it ends where the names lead, and nowhere else. */
  method Walk(w: World, ghost launcher: Path, firstRoot: Path, ghost firstAt: Path, names: seq<Name>, first: Baggage)
    returns (walked: Walked, ghost end: Path)
    requires Standing(w, launcher, firstRoot, firstRoot, firstAt, firstRoot, names, first) && first.followed == {}
    ensures walked.Walked? ==> Found(w.fs, w.owners, w.roots, AllowedIn(w), launcher, walked.final, end)
    ensures walked.Walked? && AllDeclared(w.roots, w.ancestors) ==> end == walked.final.path
    ensures walked.Walked? ==> walked.chain != [] && walked.chain[|walked.chain| - 1] == walked.final
    ensures walked.Walked? ==> ChainTrusted(walked.chain[..|walked.chain| - 1], w.owners)
    ensures walked.Walked? ==> CrossingsDeclared(walked.crossings, w.links) && |walked.crossings| <= MAX_SYMLINKS
    ensures walked.Walked? && walked.crossings == [] ==> Under(walked.final.path, firstRoot)
    ensures Leads(w, firstRoot, firstRoot, names, {}) == if walked.Walked? then Some(walked.final) else None
  {
    end := [];
    ghost var at := firstAt;
    var root, current, pending, b := firstRoot, firstRoot, names, first;
    while pending != []
      invariant Standing(w, launcher, firstRoot, root, at, current, pending, b)
      invariant Leads(w, root, current, pending, b.followed) == Leads(w, firstRoot, firstRoot, names, {})
      decreases MAX_SYMLINKS - |b.followed|, |pending|
    {
      var move;
      move, at, b, end := StepOf(w, launcher, firstRoot, root, at, current, pending, b);
      if move.Halt? {
        return Stopped(move.reason), end;
      }
      if move.Last? {
        var whole := b.chain + [move.final];
        assert whole[..|whole| - 1] == b.chain;
        return Walked(move.final, whole, b.crossings), end;
      }
      root, current, pending := move.root, move.current, move.pending;
    }
    walked := Stopped(NoExecutable);
  }

  lemma {:induction false} WholeChainTrusted(chain: seq<Row>, final: Row, owners: set<Owner>)
    requires chain != [] && chain[|chain| - 1] == final && ChainTrusted(chain[..|chain| - 1], owners)
             && RowTrusted(final, owners)
    ensures ChainTrusted(chain, owners)
  {
    ChainGrows(chain[..|chain| - 1], final, owners);
    assert chain == chain[..|chain| - 1] + [final];
  }

  lemma {:induction false} WalkReady(fs: FileSystem, steps: nat, launcher: Path, roots: seq<Path>,
                                     ancestors: seq<Path>, owners: set<Owner>, root: Path)
    returns (at: Path)
    requires root in roots && Canonical(root) && RootAttested(fs, steps, owners, ancestors, root)
             && Under(launcher, root)
    ensures Tracks(fs, Allowed(fs, steps, owners, roots, ancestors), launcher, root, at, root, launcher[|root|..])
    ensures AllDeclared(roots, ancestors) ==> at == root
    ensures root + launcher[|root|..] == launcher
  {
    at := RootReached(fs, steps, owners, roots, ancestors, root);
    TracksStart(fs, Allowed(fs, steps, owners, roots, ancestors), launcher, root, at);
  }

  /** The launcher leads from its root to an executable that is trusted. */
  predicate LeadsToExecutable(w: World, root: Path, launcher: Path)
    requires Under(launcher, root)
  {
    var end := Leads(w, root, root, launcher[|root|..], {});
    end.Some? && TrustedExecutable(end.value.node, w.owners)
  }

  /** The walk finds a trusted executable exactly when there is a route to it. */
  lemma {:induction false} LeadsIffRouted(w: World, root: Path, launcher: Path)
    requires RootsSound(w) && Under(launcher, root)
    ensures LeadsToExecutable(w, root, launcher) ==>
              Routed(w, root, launcher, Leads(w, root, root, launcher[|root|..], {}).value.path)
    ensures forall final :: Routed(w, root, launcher, final) ==>
              LeadsToExecutable(w, root, launcher) && Leads(w, root, root, launcher[|root|..], {}).value.path == final
  {
    if LeadsToExecutable(w, root, launcher) {
      var hops := LeadsRoute(w, root, root, launcher[|root|..], {},
                             Leads(w, root, root, launcher[|root|..], {}).value);
    }
    forall final | Routed(w, root, launcher, final)
      ensures LeadsToExecutable(w, root, launcher) && Leads(w, root, root, launcher[|root|..], {}).value.path == final
    {
      var hops :| |hops| <= 8 && Fresh(hops, {}) && Route(w, root, root, launcher[|root|..], hops, final);
      RouteLeads(w, root, root, launcher[|root|..], hops, final, {});
    }
  }

  lemma {:induction false} StraightIsAccepted(w: World, root: Path, launcher: Path)
    requires RootsSound(w) && Canonical(launcher) && Straight(w.fs, w.steps, w.owners, root, launcher)
    ensures LeadsToExecutable(w, root, launcher) && Leads(w, root, root, launcher[|root|..], {}).value.path == launcher
  {
    var names := launcher[|root|..];
    assert root + names == launcher;
    forall i | 0 < i < |names| ensures TrustedDirectory(w.fs, w.steps, w.owners, root + names[..i]) {
      assert root + names[..i] == launcher[..|root| + i];
    }
    RouteLeads(w, root, root, names, [], launcher, {});
  }

  /** A launcher that is a relative link to a trusted executable in its own directory is a route of one hop. */
  lemma {:induction false} RelativeLinkRouted(w: World, root: Path, launcher: Path, name: Name)
    requires root in w.roots && Under(launcher, root) && |root| < |launcher| && Canonical(launcher) && Plain(name)
    requires forall i :: |root| < i < |launcher| ==> TrustedDirectory(w.fs, w.steps, w.owners, launcher[..i])
    requires Lstat(w.fs, w.steps, launcher).Some? && Lstat(w.fs, w.steps, launcher).value.owner in w.owners
    requires Lstat(w.fs, w.steps, launcher).value.kind == Symlink(Target(true, false, [name]))
    requires var final := launcher[..|launcher| - 1] + [name];
             Lstat(w.fs, w.steps, final).Some? && TrustedExecutable(Lstat(w.fs, w.steps, final).value, w.owners)
    ensures Routed(w, root, launcher, launcher[..|launcher| - 1] + [name])
  {
    var final, names := launcher[..|launcher| - 1] + [name], launcher[|root|..];
    var hop := Hop(names, [], Lstat(w.fs, w.steps, launcher).value, root);
    assert root + names == launcher && names + [] == names && [hop][1..] == [];
    assert Stretch(w, root, names) by {
      forall i | 0 < i < |names| ensures TrustedDirectory(w.fs, w.steps, w.owners, root + names[..i]) {
        assert root + names[..i] == launcher[..|root| + i];
      }
    }
    SiblingRouted(w, root, launcher, name);
    assert final[|root|..] + [] == final[|root|..];
    assert Route(w, root, root, names, [hop], final);
    assert Fresh([hop], {});
  }

  lemma {:induction false} SiblingRouted(w: World, root: Path, launcher: Path, name: Name)
    requires Under(launcher, root) && |root| < |launcher| && Canonical(launcher) && Plain(name)
    requires forall i :: |root| < i < |launcher| ==> TrustedDirectory(w.fs, w.steps, w.owners, launcher[..i])
    requires var final := launcher[..|launcher| - 1] + [name];
             Lstat(w.fs, w.steps, final).Some? && TrustedExecutable(Lstat(w.fs, w.steps, final).value, w.owners)
    ensures var final := launcher[..|launcher| - 1] + [name];
            Under(final, root) && Route(w, root, root, final[|root|..], [], final)
  {
    var final := launcher[..|launcher| - 1] + [name];
    var left := final[|root|..];
    assert root == launcher[..|root|] && root + left == final;
    forall i | 0 <= i < |left| ensures Plain(left[i]) {
      assert i < |left| - 1 ==> left[i] == launcher[|root| + i];
    }
    forall i | 0 < i < |left| ensures TrustedDirectory(w.fs, w.steps, w.owners, root + left[..i]) {
      assert root + left[..i] == launcher[..|root| + i];
    }
  }

  /** What an attestation vouches for: one trusted executable, trusted rows, declared crossings. */
  ghost predicate Vouched(w: World, launcher: Path, root: Path, final: Path, chain: seq<Row>,
                          crossings: seq<Transition>) {
    && (exists p :: SameExecutable(w.fs, w.owners, AllowedIn(w), launcher, final, p)
                    && RootDecides(w.fs, w.roots, AllowedIn(w), final, p))
    && (AllDeclared(w.roots, w.ancestors) ==>
          SameExecutable(w.fs, w.owners, Safe(w.fs, w.owners), launcher, final, final))
    && ChainTrusted(chain, w.owners) && CrossingsDeclared(crossings, w.links) && |crossings| <= MAX_SYMLINKS
    && (crossings == [] ==> Under(final, root))
  }

  /** A trusted executable that was found is what the launcher and the final path both resolve to. */
  lemma {:induction false} FoundExecutable(w: World, launcher: Path, root: Path, walked: Walked, end: Path)
    requires walked.Walked? && TrustedExecutable(walked.final.node, w.owners)
    requires Found(w.fs, w.owners, w.roots, AllowedIn(w), launcher, walked.final, end)
    requires AllDeclared(w.roots, w.ancestors) ==> end == walked.final.path
    requires walked.chain != [] && walked.chain[|walked.chain| - 1] == walked.final
    requires ChainTrusted(walked.chain[..|walked.chain| - 1], w.owners)
    requires CrossingsDeclared(walked.crossings, w.links) && |walked.crossings| <= MAX_SYMLINKS
    requires walked.crossings == [] ==> Under(walked.final.path, root)
    ensures Vouched(w, launcher, root, walked.final.path, walked.chain, walked.crossings)
  {
    assert SameExecutable(w.fs, w.owners, AllowedIn(w), launcher, walked.final.path, end);
    WholeChainTrusted(walked.chain, walked.final, w.owners);
  }

  /** The walk from an attested root, and the check of what it found. */
  method AttestWalk(w: World, launcher: Path, root: Path, attested: set<Path>, chain: seq<Row>) returns (result: Result)
    requires RootsSound(w) && root in w.roots && Under(launcher, root)
    requires RootAttested(w.fs, w.steps, w.owners, w.ancestors, root)
    requires forall d :: d in attested ==> TrustedDirectory(w.fs, w.steps, w.owners, d)
    requires ChainTrusted(chain, w.owners)
    ensures result.Attested? <==> LeadsToExecutable(w, root, launcher)
    ensures result.Attested? ==> result.final == Leads(w, root, root, launcher[|root|..], {}).value.path
    ensures result.Attested? ==> Vouched(w, launcher, root, result.final, result.chain, result.crossings)
  {
    ghost var at := WalkReady(w.fs, w.steps, launcher, w.roots, w.ancestors, w.owners, root);
    var walked;
    ghost var end;
    walked, end := Walk(w, launcher, root, at, launcher[|root|..], Baggage(attested, chain, {}, []));
    if walked.Stopped? {
      return Refused(walked.reason);
    }
    if !TrustedExecutable(walked.final.node, w.owners) {
      return Refused(BadExecutable);
    }
    FoundExecutable(w, launcher, root, walked, end);
    result := Attested(walked.final.path, walked.chain, walked.crossings);
  }

  /** The attestation of a launcher under its root: the root, the walk, the executable. */
  method AttestUnder(fs: FileSystem, steps: nat, launcher: Path, roots: seq<Path>, ancestors: seq<Path>,
                     links: seq<Transition>, owners: set<Owner>, root: Path) returns (result: Result)
    requires Canonical(launcher) && Separate(roots) && root in roots && (forall r :: r in roots ==> Canonical(r))
             && Under(launcher, root)
    ensures result.Attested? ==>
              exists p :: SameExecutable(fs, owners, Allowed(fs, steps, owners, roots, ancestors), launcher,
                                         result.final, p)
                          && RootDecides(fs, roots, Allowed(fs, steps, owners, roots, ancestors), result.final, p)
    ensures result.Attested? && AllDeclared(roots, ancestors) ==>
              SameExecutable(fs, owners, Safe(fs, owners), launcher, result.final, result.final)
    ensures result.Attested? ==> ChainTrusted(result.chain, owners) && CrossingsDeclared(result.crossings, links)
    ensures result.Attested? ==> |result.crossings| <= MAX_SYMLINKS
    ensures result.Attested? && result.crossings == [] ==> Under(result.final, root)
    ensures result.Attested? <==>
              RootAttested(fs, steps, owners, ancestors, root)
              && LeadsToExecutable(World(fs, steps, owners, roots, ancestors, links), root, launcher)
    ensures result.Attested? ==>
              result.final == Leads(World(fs, steps, owners, roots, ancestors, links), root, root, launcher[|root|..],
                                    {}).value.path
  {
    var ok, attested, chain := AttestRoot(fs, steps, owners, ancestors, root, {}, []);
    if !ok {
      return Refused(UnsafeRoot);
    }
    result := AttestWalk(World(fs, steps, owners, roots, ancestors, links), launcher, root, attested, chain);
  }

  /**
   _attest_python_path, up to hashing. Success means: ordinary resolution of the launcher and of the
   final path name the same trusted executable, through trusted directories; the final path is the
   resolved path itself exactly when its root is, as it always is when every directory above a root
   is declared. Roots are changed only by declared links.
   */
  method AttestPythonPath(fs: FileSystem, steps: nat, launcher: Path, roots: seq<Path>, ancestors: seq<Path>,
                          links: seq<Transition>, owners: set<Owner>) returns (result: Result)
    ensures result.Attested? ==> Declared(launcher, roots, ancestors, links)
    ensures result.Attested? ==>
              exists p :: SameExecutable(fs, owners, Allowed(fs, steps, owners, roots, ancestors), launcher,
                                         result.final, p)
                          && RootDecides(fs, roots, Allowed(fs, steps, owners, roots, ancestors), result.final, p)
    ensures result.Attested? && AllDeclared(roots, ancestors) ==>
              SameExecutable(fs, owners, Safe(fs, owners), launcher, result.final, result.final)
    ensures result.Attested? ==> ChainTrusted(result.chain, owners)
    ensures result.Attested? ==> CrossingsDeclared(result.crossings, links)
    ensures result.Attested? ==> |result.crossings| <= MAX_SYMLINKS
    ensures result.Attested? && result.crossings == [] ==>
              SelectedRoot(roots, launcher).Some? && Under(result.final, SelectedRoot(roots, launcher).value)
    ensures result.Attested? <==>
              && Declared(launcher, roots, ancestors, links) && SelectedRoot(roots, launcher).Some?
              && RootAttested(fs, steps, owners, ancestors, SelectedRoot(roots, launcher).value)
              && LeadsToExecutable(World(fs, steps, owners, roots, ancestors, links),
                                   SelectedRoot(roots, launcher).value, launcher)
    ensures result.Attested? ==>
              var root := SelectedRoot(roots, launcher).value;
              Leads(World(fs, steps, owners, roots, ancestors, links), root, root, launcher[|root|..], {}).value.path
                  == result.final
    ensures result.Attested? <==>
              && Declared(launcher, roots, ancestors, links) && SelectedRoot(roots, launcher).Some?
              && RootAttested(fs, steps, owners, ancestors, SelectedRoot(roots, launcher).value)
              && exists final :: Routed(World(fs, steps, owners, roots, ancestors, links),
                                        SelectedRoot(roots, launcher).value, launcher, final)
    ensures result.Attested? ==>
              Routed(World(fs, steps, owners, roots, ancestors, links), SelectedRoot(roots, launcher).value, launcher,
                     result.final)
  {
    if !Declared(launcher, roots, ancestors, links) {
      return Refused(Declaration);
    }
    var selected := SelectedRoot(roots, launcher);
    if selected.None? {
      return Refused(OutsideRoots);
    }
    LeadsIffRouted(World(fs, steps, owners, roots, ancestors, links), selected.value, launcher);
    result := AttestUnder(fs, steps, launcher, roots, ancestors, links, owners, selected.value);
  }

  const OWNER: Owner := (0, 0)

  function PlainDirectory(inode: int): Node {
    Node(Directory, OWNER, false, true, (0, inode), 1, 0)
  }

  /** A root reached through a link in a directory above it that is not declared. */
  const LINKED: FileSystem := map[
    ["a"] := Node(Symlink(Target(true, true, ["c"])), OWNER, false, true, (0, 1), 1, 1),
    ["c"] := PlainDirectory(2),
    ["c", "r"] := PlainDirectory(3),
    ["c", "r", "x"] := Node(Regular, OWNER, false, true, (0, 4), 1, 1)
  ]

  lemma {:induction false} FromLink(rest: seq<Name>, steps: nat)
    requires steps >= 2
    ensures Resolve(LINKED, [], ["a"] + rest, steps) == Enter(Resolve(LINKED, ["c"], rest, steps - 2), ["c"])
  {
    var top: Path := [];
    assert top + ["a"] == ["a"] && top + ["c"] == ["c"];
    assert (["a"] + rest)[1..] == rest && (["c"] + rest)[1..] == rest;
    assert Resolve(LINKED, [], ["a"] + rest, steps) == Resolve(LINKED, [], ["c"] + rest, steps - 1);
  }

  lemma {:induction false} LinkedResolves()
    ensures Resolve(LINKED, [], ["a"], 10) == Arrived(["c"], {["c"]})
    ensures Resolve(LINKED, [], ["a", "r"], 10) == Arrived(["c", "r"], {["c", "r"], ["c"]})
    ensures Resolve(LINKED, [], ["a", "r", "x"], 10) == Arrived(["c", "r", "x"], {["c", "r"], ["c"]})
  {
    FromLink([], 10);
    FromLink(["r"], 10);
    FromLink(["r", "x"], 10);
    assert ["a"] + [] == ["a"] && ["a"] + ["r"] == ["a", "r"] && ["a"] + ["r", "x"] == ["a", "r", "x"];
    assert ["c"] + ["r"] == ["c", "r"] && ["c", "r"] + ["x"] == ["c", "r", "x"];
    assert ["r"][1..] == [] && ["r", "x"][1..] == ["x"] && ["x"][1..] == [];
    assert Resolve(LINKED, ["c"], ["r"], 8) == Arrived(["c", "r"], {["c", "r"]});
    assert Resolve(LINKED, ["c", "r"], ["x"], 7) == Arrived(["c", "r", "x"], {});
  }

  lemma {:induction false} LinkedIsStraight()
    ensures RootAttested(LINKED, 10, {OWNER}, [], ["a", "r"])
            && Straight(LINKED, 10, {OWNER}, ["a", "r"], ["a", "r", "x"])
  {
    LinkedResolves();
    assert ["a", "r"][..1] == ["a"] && ["a", "r", "x"][..2] == ["a", "r"];
    assert Locate(LINKED, 10, ["a", "r"]) == Some(["c"] + ["r"]);
    assert ["c"] + ["r"] == ["c", "r"];
    assert Locate(LINKED, 10, ["a", "r", "x"]) == Some(["c", "r"] + ["x"]);
    assert ["c", "r"] + ["x"] == ["c", "r", "x"];
  }

  lemma {:induction false} LinkedIsDeclared()
    ensures Declared(["a", "r", "x"], [["a", "r"]], [], [])
            && SelectedRoot([["a", "r"]], ["a", "r", "x"]) == Some(["a", "r"])
  {
    assert ["a", "r", "x"][..2] == ["a", "r"];
  }

  /** There the launcher is accepted as its own final path, although it resolves to another one. */
  method UndeclaredLinkKept() returns (result: Result)
    ensures result.Attested? && result.final == ["a", "r", "x"]
    ensures Resolve(LINKED, [], ["a", "r", "x"], 10) == Arrived(["c", "r", "x"], {["c", "r"], ["c"]})
  {
    LinkedResolves();
    LinkedIsStraight();
    LinkedIsDeclared();
    StraightIsAccepted(World(LINKED, 10, {OWNER}, [["a", "r"]], [], []), ["a", "r"], ["a", "r", "x"]);
    result := AttestPythonPath(LINKED, 10, ["a", "r", "x"], [["a", "r"]], [], [], {OWNER});
  }
}
