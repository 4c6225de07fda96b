/**
 Process-table closures of the recovery smoke harness
 (scripts/llm_guard_proxy_loop_recovery_smoke.py): the descendants of one identity-checked process,
 and the set of processes owned by a supervisor. A table may hold cycles and dangling parents.
 */
module ProcessClosure {

  datatype Process = Process(pid: int, ppid: int, starttime: int)

  type Table = map<int, Process>

  predicate SameProcess(table: Table, p: Process) {
    p.pid in table && table[p.pid].pid == p.pid && table[p.pid].starttime == p.starttime
  }

  /** pid reaches root by following n parent links, every process on the way being in the table. */
  predicate Chain(table: Table, root: int, pid: int, n: nat)
    decreases n
  {
    n >= 1 && pid in table
    && (if n == 1 then table[pid].ppid == root else Chain(table, root, table[pid].ppid, n - 1))
  }

  ghost predicate Descends(table: Table, root: int, pid: int) {
    exists n: nat :: Chain(table, root, pid, n)
  }

  lemma {:induction false} ClosedHoldsChains(table: Table, root: int, found: set<int>, pid: int, n: nat)
    requires forall p :: p in table && (table[p].ppid == root || table[p].ppid in found) ==> p in found
    requires Chain(table, root, pid, n)
    ensures pid in found
    decreases n
  {
    if n > 1 {
      ClosedHoldsChains(table, root, found, table[pid].ppid, n - 1);
    }
  }

  lemma {:induction false} ChainGrows(table: Table, root: int, pid: int)
    requires pid in table && (table[pid].ppid == root || Descends(table, root, table[pid].ppid))
    ensures Descends(table, root, pid)
  {
    if table[pid].ppid == root {
      assert Chain(table, root, pid, 1);
    } else {
      var n: nat :| Chain(table, root, table[pid].ppid, n);
      assert Chain(table, root, pid, n + 1);
    }
  }

  /** order is the iteration order of the table, whatever it is. */
  ghost predicate Enumerates(order: seq<int>, table: Table) {
    forall pid :: pid in order <==> pid in table
  }

  /** Exactly the processes with a nonempty parent chain, inside the table, to the checked root. */
  method DescendantProcesses(root: Process, table: Table, order: seq<int>) returns (descendants: Table)
    requires Enumerates(order, table)
    ensures root.pid !in table || table[root.pid].pid != root.pid || table[root.pid].starttime != root.starttime ==>
              descendants == map[]
    ensures root.pid in table && table[root.pid].pid == root.pid && table[root.pid].starttime == root.starttime ==>
              forall pid :: pid in descendants <==> Descends(table, root.pid, pid)
    ensures forall pid :: pid in descendants ==> pid in table && descendants[pid] == table[pid]
  {
    descendants := map[];
    if !SameProcess(table, root) {
      return;
    }
    var changed := true;
    while changed
      invariant descendants.Keys <= table.Keys
      invariant forall pid :: pid in descendants ==> descendants[pid] == table[pid]
      invariant forall pid :: pid in descendants ==> Descends(table, root.pid, pid)
      invariant !changed ==>
                  forall p :: p in table && (table[p].ppid == root.pid || table[p].ppid in descendants) ==>
                        p in descendants
      decreases table.Keys - descendants.Keys, changed
    {
      changed := false;
      ghost var before := descendants;
      var parents := {root.pid} + descendants.Keys;
      for i := 0 to |order|
        invariant before.Keys <= descendants.Keys <= table.Keys
        invariant changed <==> before.Keys != descendants.Keys
        invariant forall pid :: pid in descendants ==> descendants[pid] == table[pid]
        invariant forall pid :: pid in descendants ==> Descends(table, root.pid, pid)
        invariant forall j :: 0 <= j < i && order[j] in table && table[order[j]].ppid in parents ==>
                    order[j] in descendants
      {
        var pid := order[i];
        assert pid in table;
        if pid !in descendants && table[pid].ppid in parents {
          ChainGrows(table, root.pid, pid);
          descendants := descendants[pid := table[pid]];
          changed := true;
          assert pid in descendants.Keys && pid !in before.Keys;
        }
      }
      if !changed {
        forall p | p in table && (table[p].ppid == root.pid || table[p].ppid in descendants)
          ensures p in descendants
        {
          assert p in order;
        }
      }
    }
    forall pid | Descends(table, root.pid, pid) ensures pid in descendants {
      var n: nat :| Chain(table, root.pid, pid, n);
      ClosedHoldsChains(table, root.pid, descendants.Keys, pid, n);
    }
  }

  predicate ClosedUnderChildren(table: Table, owned: set<int>) {
    forall p :: p in table && table[p].ppid in owned ==> p in owned
  }

  /** The seeds of _owned_processes: remembered, the root, and a supervisor's own children. */
  function Seeds(table: Table, known: seq<Process>, root: seq<Process>, supervisor: seq<int>): set<int> {
    (set p | p in known && SameProcess(table, p) :: p.pid)
    + (set p | p in root && SameProcess(table, p) :: p.pid)
    + (set pid | pid in table && table[pid].ppid in supervisor)
  }

  /** The processes given that are still the same, and all children of the supervisors. */
  predicate HasSeeds(table: Table, given: seq<Process>, supervisor: seq<int>, owned: set<int>) {
    && (forall p ::
          p in given && p.pid in table && table[p.pid].pid == p.pid && table[p.pid].starttime == p.starttime ==>
            p.pid in owned)
    && (forall pid :: pid in table && table[pid].ppid in supervisor ==> pid in owned)
  }

  lemma {:induction false} SeedsAre(table: Table, known: seq<Process>, root: seq<Process>, supervisor: seq<int>,
                                    owned: set<int>)
    ensures HasSeeds(table, known + root, supervisor, owned) <==> Seeds(table, known, root, supervisor) <= owned
  {
    if HasSeeds(table, known + root, supervisor, owned) {
      forall pid | pid in Seeds(table, known, root, supervisor) ensures pid in owned {
        if p :| (p in known || p in root) && SameProcess(table, p) && p.pid == pid {
          assert p in known + root;
        }
      }
    }
    if Seeds(table, known, root, supervisor) <= owned {
      forall p | p in known + root && SameProcess(table, p) ensures p.pid in owned {
        assert p.pid in Seeds(table, known, root, supervisor);
      }
      forall pid | pid in table && table[pid].ppid in supervisor ensures pid in owned {
        assert pid in Seeds(table, known, root, supervisor);
      }
    }
  }

  /** The least set that contains the seeds and is closed under children. */
  method OwnedClosure(table: Table, seeds: set<int>, order: seq<int>) returns (owned: set<int>)
    requires Enumerates(order, table)
    requires seeds <= table.Keys
    ensures seeds <= owned <= table.Keys
    ensures ClosedUnderChildren(table, owned)
    ensures forall other: set<int> :: seeds <= other && ClosedUnderChildren(table, other) ==> owned <= other
  {
    owned := seeds;
    var changed := true;
    while changed
      invariant seeds <= owned <= table.Keys
      invariant forall other: set<int> :: seeds <= other && ClosedUnderChildren(table, other) ==> owned <= other
      invariant !changed ==> ClosedUnderChildren(table, owned)
      decreases table.Keys - owned, changed
    {
      changed := false;
      ghost var before := owned;
      for i := 0 to |order|
        invariant before <= owned <= table.Keys
        invariant changed <==> before != owned
        invariant forall other: set<int> :: seeds <= other && ClosedUnderChildren(table, other) ==> owned <= other
        invariant !changed ==> forall j :: 0 <= j < i && order[j] in table && table[order[j]].ppid in owned ==>
                    order[j] in owned
      {
        var pid := order[i];
        assert pid in table;
        if pid !in owned && table[pid].ppid in owned {
          owned := owned + {pid};
          changed := true;
          assert pid !in before;
        }
      }
    }
  }

  /** _owned_processes up to its closing loop: the seeds it collects, then their closure. */
  method OwnedProcesses(table: Table, known: seq<Process>, root: seq<Process>, supervisor: seq<int>, order: seq<int>)
    returns (owned: set<int>)
    requires Enumerates(order, table)
    ensures HasSeeds(table, known + root, supervisor, owned) && ClosedUnderChildren(table, owned)
    ensures forall other: set<int> ::
              HasSeeds(table, known + root, supervisor, other) && ClosedUnderChildren(table, other) ==> owned <= other
  {
    owned := OwnedClosure(table, Seeds(table, known, root, supervisor), order);
    forall other: set<int> ensures HasSeeds(table, known + root, supervisor, other)
                                   <==> Seeds(table, known, root, supervisor) <= other {
      SeedsAre(table, known, root, supervisor, other);
    }
  }
}
