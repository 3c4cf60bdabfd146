/**
  The load-test sampler's process tree (loadgen_resource_sampler.py): the roots and all their
  descendants, for any process table, also one read while processes come and go, where parents may be
  missing and parent links may form cycles.
 */
module ProcessTree {

  datatype Process = Process(pid: int, ppid: int)

  /** No process of the table has a selected parent without being selected. */
  ghost predicate Closed(procs: seq<Process>, selected: set<int>) {
    forall i :: 0 <= i < |procs| && procs[i].ppid in selected ==> procs[i].pid in selected
  }

  /** The line leads from a root down to its last pid, each step from a parent to a child in the table. */
  predicate Lineage(procs: seq<Process>, roots: set<int>, line: seq<int>)
    decreases |line|
  {
    line != []
    && if |line| == 1 then line[0] in roots
       else Process(line[|line| - 1], line[|line| - 2]) in procs && Lineage(procs, roots, line[..|line| - 1])
  }

  ghost predicate Descends(procs: seq<Process>, roots: set<int>, pid: int) {
    exists line :: Lineage(procs, roots, line) && line[|line| - 1] == pid
  }

  function Pids(procs: seq<Process>): set<int> {
    set i | 0 <= i < |procs| :: procs[i].pid
  }

  lemma RootDescends(procs: seq<Process>, roots: set<int>, pid: int)
    requires pid in roots
    ensures Descends(procs, roots, pid)
  {
    assert Lineage(procs, roots, [pid]);
  }

  lemma ChildDescends(procs: seq<Process>, roots: set<int>, p: Process)
    requires p in procs && Descends(procs, roots, p.ppid)
    ensures Descends(procs, roots, p.pid)
  {
    var line :| Lineage(procs, roots, line) && line[|line| - 1] == p.ppid;
    var longer := line + [p.pid];
    assert longer[..|longer| - 1] == line;
    assert Lineage(procs, roots, longer);
  }

  /** A closed set with the roots has every descendant. */
  lemma {:induction false} LineageStaysInside(procs: seq<Process>, roots: set<int>, selected: set<int>, line: seq<int>)
    requires roots <= selected && Closed(procs, selected) && Lineage(procs, roots, line)
    ensures line[|line| - 1] in selected
    decreases |line|
  {
    if |line| > 1 {
      LineageStaysInside(procs, roots, selected, line[..|line| - 1]);
      var i :| 0 <= i < |procs| && procs[i] == Process(line[|line| - 1], line[|line| - 2]);
      assert procs[i].ppid in selected;
    }
  }

  /** The selected pids are the least set that has the roots and is closed: the roots' descendants. */
  method ExpandTree(procs: seq<Process>, roots: set<int>) returns (selected: set<int>)
    ensures roots <= selected && Closed(procs, selected)
    ensures forall other :: roots <= other && Closed(procs, other) ==> selected <= other
    ensures forall pid :: pid in selected <==> Descends(procs, roots, pid)
  {
    hide Descends;
    selected := roots;
    forall pid | pid in roots
      ensures Descends(procs, roots, pid)
    {
      RootDescends(procs, roots, pid);
    }
    var changed := true;
    while changed
      invariant roots <= selected <= roots + Pids(procs)
      invariant !changed ==> Closed(procs, selected)
      invariant forall pid :: pid in selected ==> Descends(procs, roots, pid)
      decreases roots + Pids(procs) - selected, if changed then 1 else 0
    {
      changed := false;
      ghost var before := selected;
      for i := 0 to |procs|
        invariant before <= selected <= roots + Pids(procs)
        invariant changed <==> selected != before
        invariant !changed ==> forall j :: 0 <= j < i && procs[j].ppid in selected ==> procs[j].pid in selected
        invariant forall pid :: pid in selected ==> Descends(procs, roots, pid)
      {
        var p := procs[i];
        if p.ppid in selected && p.pid !in selected {
          ChildDescends(procs, roots, p);
          selected := selected + {p.pid};
          changed := true;
        }
      }
    }
    DescendantsAreSelected(procs, roots, selected);
    forall other | roots <= other && Closed(procs, other)
      ensures selected <= other
    {
      DescendantsAreSelected(procs, roots, other);
    }
  }

  lemma DescendantsAreSelected(procs: seq<Process>, roots: set<int>, selected: set<int>)
    requires roots <= selected && Closed(procs, selected)
    ensures forall pid :: Descends(procs, roots, pid) ==> pid in selected
  {
    forall pid | Descends(procs, roots, pid)
      ensures pid in selected
    {
      var line :| Lineage(procs, roots, line) && line[|line| - 1] == pid;
      LineageStaysInside(procs, roots, selected, line);
    }
  }

  /** The processes on a cycle of parents that holds no root are left out. */
  lemma RootlessCyclesAreLeftOut(procs: seq<Process>, roots: set<int>, cycle: set<int>, pid: int)
    requires pid in cycle && cycle !! roots
    requires forall i :: 0 <= i < |procs| && procs[i].pid in cycle ==> procs[i].ppid in cycle
    ensures !Descends(procs, roots, pid)
  {
    if Descends(procs, roots, pid) {
      var line :| Lineage(procs, roots, line) && line[|line| - 1] == pid;
      NoWayIn(procs, roots, cycle, line);
    }
  }

  lemma {:induction false} NoWayIn(procs: seq<Process>, roots: set<int>, cycle: set<int>, line: seq<int>)
    requires cycle !! roots && Lineage(procs, roots, line)
    requires forall i :: 0 <= i < |procs| && procs[i].pid in cycle ==> procs[i].ppid in cycle
    ensures line[|line| - 1] !in cycle
    decreases |line|
  {
    if |line| > 1 {
      NoWayIn(procs, roots, cycle, line[..|line| - 1]);
      var i :| 0 <= i < |procs| && procs[i] == Process(line[|line| - 1], line[|line| - 2]);
      assert procs[i].ppid !in cycle;
    }
  }
}
