/** The runner's process tree: everything below one process, whatever the parent links look like. */
module ProcessTree {
  /** One readable status entry: a process and its parent. */
  datatype Stat = Stat(pid: int, parent: int)

  predicate IsChild(stats: seq<Stat>, parent: int, pid: int) {
    Stat(pid, parent) in stats
  }

  /** A chain of child links, `path[0]` being the oldest process. */
  predicate IsChain(stats: seq<Stat>, path: seq<int>) {
    forall i :: 0 <= i < |path| - 1 ==> IsChild(stats, path[i], path[i + 1])
  }

  /** One or more child links lead from `root` to `pid`. */
  ghost predicate Descends(stats: seq<Stat>, root: int, pid: int) {
    exists path :: |path| >= 2 && path[0] == root && path[|path| - 1] == pid && IsChain(stats, path)
  }

  function ChildrenOf(children: map<int, set<int>>, pid: int): set<int> {
    if pid in children then children[pid] else {}
  }

  lemma ChildDescends(stats: seq<Stat>, root: int, pid: int, child: int)
    requires IsChild(stats, pid, child) && (pid == root || Descends(stats, root, pid))
    ensures Descends(stats, root, child)
  {
    if Descends(stats, root, pid) {
      var path :| |path| >= 2 && path[0] == root && path[|path| - 1] == pid && IsChain(stats, path);
      assert IsChain(stats, path + [child]);
    } else {
      assert IsChain(stats, [root, child]);
    }
  }

  /** A set that holds the root's children and every member's children holds all descendants. */
  lemma {:induction false} ClosedHoldsAll(stats: seq<Stat>, root: int, found: set<int>, path: seq<int>)
    requires |path| >= 2 && path[0] == root && IsChain(stats, path)
    requires forall p, c :: (p == root || p in found) && IsChild(stats, p, c) ==> c in found
    ensures path[|path| - 1] in found
  {
    var n := |path| - 1;
    assert IsChild(stats, path[n - 1], path[n]);
    if n > 1 {
      assert IsChain(stats, path[..n]) by {
        forall i | 0 <= i < n - 1 ensures IsChild(stats, path[..n][i], path[..n][i + 1]) {
          assert IsChild(stats, path[i], path[i + 1]);
        }
      }
      ClosedHoldsAll(stats, root, found, path[..n]);
    }
  }

  method ChildrenByParent(stats: seq<Stat>) returns (children: map<int, set<int>>)
    ensures forall p, c :: c in ChildrenOf(children, p) <==> IsChild(stats, p, c)
  {
    children := map[];
    for i := 0 to |stats|
      invariant forall p, c :: c in ChildrenOf(children, p) <==> IsChild(stats[..i], p, c)
    {
      var stat := stats[i];
      assert stats[..i + 1] == stats[..i] + [stat];
      assert forall p, c :: IsChild(stats[..i + 1], p, c) <==> IsChild(stats[..i], p, c) || Stat(c, p) == stat;
      children := children[stat.parent := ChildrenOf(children, stat.parent) + {stat.pid}];
    }
    assert stats[..|stats|] == stats;
  }

  lemma SomeMember(s: set<int>)
    ensures s == {} || exists x :: x in s
  {
    assert (forall x: int :: x !in s) ==> s == {};
  }

  /** The members of a set, in some order. */
  method Listed(s: set<int>) returns (l: seq<int>)
    ensures forall x :: x in l <==> x in s
  {
    l := [];
    var rest := s;
    while rest != {}
      invariant rest <= s
      invariant forall x :: x in l <==> x in s && x !in rest
      decreases |rest|
    {
      SomeMember(rest);
      var x :| x in rest;
      rest := rest - {x};
      l := l + [x];
    }
  }

  /** All processes below `root`: the work list empties for any links, cycles included. */
  method DescendantPids(stats: seq<Stat>, root: int) returns (descendants: set<int>)
    ensures forall p :: p in descendants <==> Descends(stats, root, p)
  {
    var children := ChildrenByParent(stats);
    descendants := {};
    var pending := Listed(ChildrenOf(children, root));
    ghost var everyone := set i | 0 <= i < |stats| :: stats[i].pid;
    forall p | p in pending ensures Descends(stats, root, p) {
      ChildDescends(stats, root, root, p);
    }
    while pending != []
      invariant forall p :: p in pending || p in descendants ==> Descends(stats, root, p) && p in everyone
      invariant forall p, c :: (p == root || p in descendants) && IsChild(stats, p, c) ==>
                  c in descendants || c in pending
      decreases |everyone - descendants|, |pending|
    {
      var pid := pending[|pending| - 1];
      pending := pending[..|pending| - 1];
      if pid in descendants {
        continue;
      }
      ghost var before := everyone - descendants;
      descendants := descendants + {pid};
      assert pid in before && everyone - descendants == before - {pid};
      var more := Listed(ChildrenOf(children, pid));
      forall c | c in more ensures Descends(stats, root, c) && c in everyone {
        ChildDescends(stats, root, pid, c);
      }
      pending := pending + more;
    }
    forall p | Descends(stats, root, p) ensures p in descendants {
      var path :| |path| >= 2 && path[0] == root && path[|path| - 1] == p && IsChain(stats, path);
      ClosedHoldsAll(stats, root, descendants, path);
    }
  }
}
