/**
 Generation-bound container cleanup (scripts/gb10_verify_vllm_no_swap_core.py). The private cidfile
 names one container by full ID; only that container may be stopped and removed. Every Docker call
 may be refused, and the process may die between any two of them.
 */
module GenerationCleanup {
  import opened Foundations

  type Id = string
  type Name = string

  datatype Container = Container(name: Name, running: bool, autoRemove: bool)

  /** The cidfile as lstat and read see it; content is None when it is not exactly one full ID. */
  datatype CidFile = CidFile(regular: bool, ownerOnly: bool, content: Option<Id>)

  datatype Lookup = Refused | Absent | Found(id: Id, name: Name)

  type Containers = map<Id, Container>

  predicate UniqueNames(containers: Containers) {
    forall a, b :: a in containers && b in containers && a != b ==> containers[a].name != containers[b].name
  }

  predicate NameTaken(containers: Containers, name: Name) {
    exists id :: id in containers && containers[id].name == name
  }

  /** No listed name is in use. */
  predicate NamesFree(containers: Containers, names: seq<Name>) {
    forall i :: 0 <= i < |names| ==> !NameTaken(containers, names[i])
  }

  /** Exactly the k-th listed name is in use, and it is the name of this ID. */
  predicate Bound(containers: Containers, names: seq<Name>, id: Id, k: nat) {
    && k < |names|
    && id in containers && containers[id].name == names[k]
    && (forall i :: 0 <= i < |names| && i != k ==> !NameTaken(containers, names[i]))
  }

  predicate Readable(file: CidFile) {
    file.regular && file.ownerOnly && file.content.Some?
  }

  /** The states from which cleanup can succeed. */
  predicate Ready(containers: Containers, cidfile: Option<CidFile>, names: seq<Name>) {
    match cidfile
    case None => NamesFree(containers, names)
    case Some(file) =>
      Readable(file)
      && ((NamesFree(containers, names) && file.content.value !in containers)
          || exists k :: 0 <= k < |names| && Bound(containers, names, file.content.value, k))
  }

  class Host {
    var containers: Containers
    var cidfile: Option<CidFile>

    ghost predicate Valid()
      reads this
    {
      UniqueNames(containers)
    }

    constructor (containers: Containers, cidfile: Option<CidFile>)
      requires UniqueNames(containers)
      ensures Valid() && this.containers == containers && this.cidfile == cidfile
    {
      this.containers := containers;
      this.cidfile := cidfile;
    }

    /** docker inspect by name; a calm host never refuses. */
    method InspectName(name: Name, calm: bool) returns (found: Lookup)
      requires Valid()
      ensures calm ==> !found.Refused?
      ensures found.Absent? ==> !NameTaken(containers, name)
      ensures found.Found? ==> found.id in containers && containers[found.id].name == name == found.name
    {
      var refused: bool := *;
      if refused && !calm {
        return Refused;
      }
      if id :| id in containers && containers[id].name == name {
        return Found(id, name);
      }
      return Absent;
    }

    method InspectId(id: Id, calm: bool) returns (found: Lookup)
      ensures calm ==> !found.Refused?
      ensures found.Absent? ==> id !in containers
      ensures found.Found? ==> id in containers && found == Found(id, containers[id].name)
    {
      var refused: bool := *;
      if refused && !calm {
        return Refused;
      }
      return if id in containers then Found(id, containers[id].name) else Absent;
    }

    /** docker stop: a container started with --rm disappears; failure may come before or after the effect. */
    method Stop(id: Id, calm: bool) returns (outcome: Outcome)
      requires Valid() && id in containers
      modifies this`containers
      ensures Valid()
      ensures calm ==> outcome == Ok
      ensures containers == old(containers)
              || containers == old(containers)[id := old(containers)[id].(running := false)]
              || containers == old(containers) - {id}
    {
      var early: bool, late: bool, died: bool := *, *, *;
      if early && !calm {
        return if died then Died else Raised;
      }
      if containers[id].autoRemove {
        containers := containers - {id};
      } else {
        containers := containers[id := containers[id].(running := false)];
      }
      if late && !calm {
        return if died then Died else Raised;
      }
      return Ok;
    }

    /** docker rm -f: an already absent container counts as removed. */
    method Remove(id: Id, calm: bool) returns (outcome: Outcome)
      requires Valid()
      modifies this`containers
      ensures Valid()
      ensures calm ==> outcome == Ok
      ensures containers == old(containers) || containers == old(containers) - {id}
      ensures calm ==> containers == old(containers) - {id}
    {
      var early: bool, late: bool, died: bool := *, *, *;
      if early && !calm {
        return if died then Died else Raised;
      }
      containers := containers - {id};
      if late && !calm {
        return if died then Died else Raised;
      }
      return Ok;
    }

    /** The listed names in use, by position; Raised when a lookup is refused. */
    method InspectNames(names: seq<Name>, calm: bool) returns (outcome: Outcome, used: seq<nat>, found: seq<Lookup>)
      requires Valid()
      ensures outcome != Died && (calm ==> outcome == Ok)
      ensures outcome == Ok ==> |used| == |found|
      ensures outcome == Ok ==> forall j :: 0 <= j < |used| ==>
                used[j] < |names| && found[j].Found? && found[j].id in containers
                && containers[found[j].id].name == names[used[j]] == found[j].name
      ensures outcome == Ok ==> forall i, j :: 0 <= i < j < |used| ==> used[i] < used[j]
      ensures outcome == Ok ==> forall i :: 0 <= i < |names| && i !in used ==> !NameTaken(containers, names[i])
    {
      used, found := [], [];
      for i := 0 to |names|
        invariant |used| == |found|
        invariant forall j :: 0 <= j < |used| ==>
                    used[j] < i && found[j].Found? && found[j].id in containers
                    && containers[found[j].id].name == names[used[j]] == found[j].name
        invariant forall a, b :: 0 <= a < b < |used| ==> used[a] < used[b]
        invariant forall k :: 0 <= k < i && k !in used ==> !NameTaken(containers, names[k])
      {
        var lookup := InspectName(names[i], calm);
        if lookup.Refused? {
          return Raised, used, found;
        }
        if lookup.Found? {
          used := used + [i];
          found := found + [lookup];
        }
      }
      outcome := Ok;
    }

    /**
     cleanup. stopped tells whether the stop was issued. Whatever happens: no other container is
     touched, nothing at all changes before the stop, and a state from which cleanup can succeed is
     kept; success means all names, the ID and the cidfile are gone; a calm run succeeds exactly
     from the ready states.
     */
    method Cleanup(names: seq<Name>, calm: bool) returns (outcome: Outcome, stopped: bool)
      requires Valid()
      modifies this
      ensures Valid()
      ensures forall id :: id in old(containers) && (old(cidfile).Some? ==> old(cidfile).value.content != Some(id)) ==>
                id in containers && containers[id] == old(containers)[id]
      ensures old(cidfile).Some? && !(old(cidfile).value.regular && old(cidfile).value.ownerOnly) ==>
                outcome != Ok && containers == old(containers) && cidfile == old(cidfile)
      ensures containers.Keys <= old(containers).Keys
      ensures outcome != Ok && !stopped ==> containers == old(containers) && cidfile == old(cidfile)
      ensures cidfile == old(cidfile) || (cidfile == None && outcome == Ok)
      ensures outcome == Ok ==> NamesFree(containers, names) && cidfile == None
      ensures outcome == Ok && old(cidfile).Some? ==>
                old(cidfile).value.content.Some? && old(cidfile).value.content.value !in containers
      ensures Ready(old(containers), old(cidfile), names) ==> Ready(containers, cidfile, names)
      ensures outcome == Ok ==> Ready(old(containers), old(cidfile), names)
      ensures calm && Ready(old(containers), old(cidfile), names) ==> outcome == Ok
    {
      stopped := false;
      var used, found;
      if cidfile.None? {
        outcome, used, found := InspectNames(names, calm);
        if outcome != Ok {
          return;
        }
        if used != [] {
          assert NameTaken(containers, names[used[0]]);
          return Raised, stopped;
        }
        return Ok, stopped;
      }
      var file := cidfile.value;
      if !Readable(file) {
        return Raised, stopped;
      }
      var id := file.content.value;
      outcome, used, found := InspectNames(names, calm);
      if outcome != Ok {
        return;
      }
      var byId := InspectId(id, calm);
      if byId.Refused? {
        return Raised, stopped;
      }
      if used == [] && byId.Absent? {
        cidfile := None;
        return Ok, stopped;
      }
      if |used| != 1 || byId.Absent? {
        NotBound(containers, names, id, used, found);
        return Raised, stopped;
      }
      var k := used[0];
      if found[0].id != id || byId.name != names[k] {
        assert NameTaken(containers, names[k]);
        return Raised, stopped;
      }
      assert Bound(containers, names, id, k);
      stopped := true;
      outcome := StopRemoveUnlink(names, id, k, calm);
    }

    /** From the stop to the final unlink, once name and full ID are known to agree. */
    method StopRemoveUnlink(names: seq<Name>, id: Id, k: nat, calm: bool) returns (outcome: Outcome)
      requires Valid() && Bound(containers, names, id, k)
      requires cidfile.Some? && Readable(cidfile.value) && cidfile.value.content == Some(id)
      modifies this
      ensures Valid()
      ensures forall other :: other in old(containers) && other != id ==>
                other in containers && containers[other] == old(containers)[other]
      ensures containers.Keys <= old(containers).Keys
      ensures cidfile == old(cidfile) || (cidfile == None && outcome == Ok)
      ensures outcome == Ok ==> NamesFree(containers, names) && cidfile == None && id !in containers
      ensures Ready(containers, cidfile, names)
      ensures calm ==> outcome == Ok
    {
      ghost var before := containers;
      outcome := Stop(id, calm);
      StillBoundOrGone(before, containers, names, id, k);
      if outcome != Ok {
        return;
      }
      outcome := Remove(id, calm);
      StillBoundOrGone(before, containers, names, id, k);
      if outcome != Ok {
        return;
      }
      var used, found;
      outcome, used, found := InspectNames(names, calm);
      if outcome != Ok {
        return;
      }
      if used != [] {
        assert NameTaken(containers, names[used[0]]);
        return Raised;
      }
      var byId := InspectId(id, calm);
      if !byId.Absent? {
        return Raised;
      }
      cidfile := None;
      return Ok;
    }
  }

  /** Stopping or removing the bound container leaves a state cleanup can finish from. */
  lemma {:induction false} StillBoundOrGone(before: Containers, after: Containers, names: seq<Name>, id: Id, k: nat)
    requires UniqueNames(before) && Bound(before, names, id, k)
    requires after.Keys <= before.Keys
    requires forall other :: other in before && other != id ==> other in after && after[other] == before[other]
    requires id in after ==> after[id].name == before[id].name
    ensures id in after ==> Bound(after, names, id, k)
    ensures id !in after ==> NamesFree(after, names)
  {
    forall i | 0 <= i < |names| && NameTaken(after, names[i]) ensures i == k && id in after {
      var other :| other in after && after[other].name == names[i];
      assert other in before && before[other].name == names[i];
      assert NameTaken(before, names[i]);
      assert i == k;
    }
  }

  lemma {:induction false} BoundIsTheOnlyUse(containers: Containers, names: seq<Name>, id: Id, k: nat, used: seq<nat>,
                                             found: seq<Lookup>)
    requires Bound(containers, names, id, k) && |used| == |found|
    requires forall j :: 0 <= j < |used| ==>
               used[j] < |names| && found[j].Found? && found[j].id in containers
               && containers[found[j].id].name == names[used[j]]
    requires forall i, j :: 0 <= i < j < |used| ==> used[i] < used[j]
    requires forall i :: 0 <= i < |names| && i !in used ==> !NameTaken(containers, names[i])
    ensures used == [k]
  {
    assert NameTaken(containers, names[k]);
    assert k in used;
    assert |used| >= 2 ==> used[0] < used[1];
    forall j | 0 <= j < |used| ensures used[j] == k {
      assert NameTaken(containers, names[used[j]]);
    }
  }

  /** When the lookups do not single out this ID, no listed name is bound to it. */
  lemma {:induction false} NotBound(containers: Containers, names: seq<Name>, id: Id, used: seq<nat>,
                                    found: seq<Lookup>)
    requires |used| == |found|
    requires forall j :: 0 <= j < |used| ==>
               used[j] < |names| && found[j].Found? && found[j].id in containers
               && containers[found[j].id].name == names[used[j]]
    requires forall i, j :: 0 <= i < j < |used| ==> used[i] < used[j]
    requires forall i :: 0 <= i < |names| && i !in used ==> !NameTaken(containers, names[i])
    requires |used| != 1 || id !in containers
    requires used != [] || id in containers
    ensures forall k :: 0 <= k < |names| ==> !Bound(containers, names, id, k)
    ensures !(NamesFree(containers, names) && id !in containers)
  {
    forall k | 0 <= k < |names| ensures !Bound(containers, names, id, k) {
      if Bound(containers, names, id, k) {
        BoundIsTheOnlyUse(containers, names, id, k, used, found);
      }
    }
    if used != [] {
      assert NameTaken(containers, names[used[0]]);
    }
  }

  /** After any number of interrupted runs from a ready state, one undisturbed run succeeds. */
  method InterruptedThenRerun(host: Host, names: seq<Name>, interruptions: nat) returns (outcome: Outcome)
    requires host.Valid() && Ready(host.containers, host.cidfile, names)
    modifies host
    ensures outcome == Ok && host.cidfile == None && NamesFree(host.containers, names)
  {
    for i := 0 to interruptions
      invariant host.Valid() && Ready(host.containers, host.cidfile, names)
    {
      var _, _ := host.Cleanup(names, false);
    }
    var stopped;
    outcome, stopped := host.Cleanup(names, true);
  }
}
