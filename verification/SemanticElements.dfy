/** Which elements of a page a snapshot returns, whose child each of them is, and
  to which of them each visible text belongs. Parent links come from the browser
  and may be anything, cycles included. */
module SemanticElements {
  import opened Sequences
  import opened Wrappers

  type Node = nat

  /** A page's parent links; an entry that is no number, or a negative one, ends the chain. */
  type Parents = seq<Option<int>>

  function Parent(parents: Parents, n: Node): Option<Node> {
    if n < |parents| && parents[n].Some? && parents[n].value >= 0 then Some(parents[n].value) else None
  }

  /** The ancestor so many steps up. */
  function Ancestor(parents: Parents, n: Node, steps: nat): Option<Node> {
    if steps == 0 then Some(n)
    else
      var below := Ancestor(parents, n, steps - 1);
      if below.None? then None else Parent(parents, below.value)
  }

  ghost predicate IsAncestor(parents: Parents, n: Node, a: Node) {
    exists k: nat :: k >= 1 && Ancestor(parents, n, k) == Some(a)
  }

  /** The first proper ancestor in a set. */
  ghost predicate IsNearest(parents: Parents, n: Node, targets: set<Node>, a: Node) {
    a in targets && exists k: nat :: k >= 1 && Ancestor(parents, n, k) == Some(a) && Clear(parents, n, targets, k)
  }

  /** No ancestor below this many steps is in the set. */
  ghost predicate Clear(parents: Parents, n: Node, targets: set<Node>, k: nat) {
    forall j: nat :: 1 <= j < k && Ancestor(parents, n, j).Some? ==> Ancestor(parents, n, j).value !in targets
  }

  /** The nearest one is the only one. */
  lemma NearestIsUnique(parents: Parents, n: Node, targets: set<Node>, a: Node, b: Node)
    requires IsNearest(parents, n, targets, a) && IsNearest(parents, n, targets, b)
    ensures a == b
  {
    var j: nat :| j >= 1 && Ancestor(parents, n, j) == Some(a) && Clear(parents, n, targets, j);
    var k: nat :| k >= 1 && Ancestor(parents, n, k) == Some(b) && Clear(parents, n, targets, k);
  }

  /** The ancestors a walk has passed. */
  ghost predicate Passed(parents: Parents, n: Node, seen: set<Node>, steps: nat) {
    && (forall a :: a in seen ==> exists j: nat :: 1 <= j <= steps && Ancestor(parents, n, j) == Some(a))
    && (forall j: nat :: 1 <= j <= steps ==> Ancestor(parents, n, j).Some? && Ancestor(parents, n, j).value in seen)
  }

  /** Once a chain meets a node it has passed, it never leaves the nodes it has passed. */
  lemma {:induction false} RevisitStays(parents: Parents, n: Node, seen: set<Node>, steps: nat, k: nat)
    requires Passed(parents, n, seen, steps) && k > steps
    requires Ancestor(parents, n, steps + 1).Some? && Ancestor(parents, n, steps + 1).value in seen
    ensures Ancestor(parents, n, k).Some? && Ancestor(parents, n, k).value in seen
  {
    if k > steps + 1 {
      RevisitStays(parents, n, seen, steps, k - 1);
      var a := Ancestor(parents, n, k - 1).value;
      var j: nat :| 1 <= j <= steps && Ancestor(parents, n, j) == Some(a);
      assert Ancestor(parents, n, k) == Parent(parents, a) == Ancestor(parents, n, j + 1);
    }
  }

  /** Past the end of a chain there is nothing. */
  lemma {:induction false} EndStays(parents: Parents, n: Node, steps: nat, k: nat)
    requires k >= steps && Ancestor(parents, n, steps).None?
    ensures Ancestor(parents, n, k).None?
  {
    if k > steps { EndStays(parents, n, steps, k - 1); }
  }

  /** A walk that has come to an end has passed every ancestor there is. */
  lemma AllPassed(parents: Parents, n: Node, seen: set<Node>, steps: nat, a: Node)
    requires Passed(parents, n, seen, steps)
    requires Ancestor(parents, n, steps + 1).Some? ==> Ancestor(parents, n, steps + 1).value in seen
    requires IsAncestor(parents, n, a)
    ensures a in seen
  {
    var k: nat :| k >= 1 && Ancestor(parents, n, k) == Some(a);
    if k > steps {
      if Ancestor(parents, n, steps + 1).Some? {
        RevisitStays(parents, n, seen, steps, k);
      } else {
        EndStays(parents, n, steps + 1, k);
      }
    }
  }

  /** The nodes that some link points at: what a walk can still pass. */
  function Linked(parents: Parents): set<Node> {
    set n | 0 <= n < |parents| && parents[n].Some? && parents[n].value >= 0 :: parents[n].value
  }

  lemma PassedOne(parents: Parents, n: Node, seen: set<Node>, steps: nat, a: Node)
    requires Passed(parents, n, seen, steps) && Ancestor(parents, n, steps + 1) == Some(a)
    ensures Passed(parents, n, seen + {a}, steps + 1)
  {
    forall b | b in seen + {a} ensures exists j: nat :: 1 <= j <= steps + 1 && Ancestor(parents, n, j) == Some(b) {
      if b in seen {
        var j: nat :| 1 <= j <= steps && Ancestor(parents, n, j) == Some(b);
      } else {
        assert Ancestor(parents, n, steps + 1) == Some(b);
      }
    }
  }

  /** Walk up to the nearest ancestor in a set; it ends on any parent links. */
  method Nearest(parents: Parents, n: Node, targets: set<Node>) returns (r: Option<Node>)
    ensures r.Some? ==> IsNearest(parents, n, targets, r.value)
    ensures r.None? ==> forall a :: a in targets ==> !IsAncestor(parents, n, a)
  {
    var current := n;
    var seen: set<Node> := {};
    ghost var steps: nat := 0;
    while current < |parents| && parents[current].Some?
      invariant Ancestor(parents, n, steps) == Some(current)
      invariant Passed(parents, n, seen, steps) && seen !! targets && seen <= Linked(parents)
      decreases |Linked(parents) - seen|
    {
      hide Passed, Linked;
      if parents[current].value < 0 || parents[current].value in seen {
        NoneAbove(parents, n, seen, steps, targets);
        return None;
      }
      var parent: Node := parents[current].value;
      assert Ancestor(parents, n, steps + 1) == Some(parent);
      PassedOne(parents, n, seen, steps, parent);
      if parent in targets {
        assert Clear(parents, n, targets, steps + 1) by { PassedIsClear(parents, n, seen, steps, targets); }
        return Some(parent);
      }
      LinkedHas(parents, current);
      Shrinks(Linked(parents), seen, parent);
      seen := seen + {parent};
      current := parent;
      steps := steps + 1;
    }
    NoneAbove(parents, n, seen, steps, targets);
    return None;
  }

  lemma LinkedHas(parents: Parents, n: Node)
    requires n < |parents| && parents[n].Some? && parents[n].value >= 0
    ensures parents[n].value in Linked(parents)
  {
  }

  lemma Shrinks(all: set<Node>, seen: set<Node>, a: Node)
    requires a in all && a !in seen
    ensures |all - (seen + {a})| < |all - seen|
  {
    assert all - seen == all - (seen + {a}) + {a};
  }

  lemma PassedIsClear(parents: Parents, n: Node, seen: set<Node>, steps: nat, targets: set<Node>)
    requires Passed(parents, n, seen, steps) && seen !! targets
    ensures Clear(parents, n, targets, steps + 1)
  {
  }

  lemma NoneAbove(parents: Parents, n: Node, seen: set<Node>, steps: nat, targets: set<Node>)
    requires Passed(parents, n, seen, steps) && seen !! targets
    requires Ancestor(parents, n, steps + 1).Some? ==> Ancestor(parents, n, steps + 1).value in seen
    ensures forall a :: a in targets ==> !IsAncestor(parents, n, a)
  {
    forall a | a in targets ensures !IsAncestor(parents, n, a) {
      if IsAncestor(parents, n, a) {
        AllPassed(parents, n, seen, steps, a);
      }
    }
  }

  // Selection.

  ghost predicate Distinct(s: seq<Node>) {
    forall i, j :: 0 <= i < j < |s| ==> s[i] != s[j]
  }

  function Elements(s: seq<Node>): set<Node> {
    set n | n in s
  }

  /** The first occurrences, in order, of the members of a set. */
  function Filter(s: seq<Node>, keep: set<Node>): seq<Node> {
    if s == [] then []
    else Filter(s[..|s| - 1], keep) + if s[|s| - 1] in keep && s[|s| - 1] !in s[..|s| - 1] then [s[|s| - 1]] else []
  }

  lemma {:induction false} FilterMembers(s: seq<Node>, keep: set<Node>)
    ensures Distinct(Filter(s, keep))
    ensures forall n :: n in Filter(s, keep) <==> n in s && n in keep
  {
    if s != [] {
      var before, last := s[..|s| - 1], s[|s| - 1];
      FilterMembers(before, keep);
      assert forall n :: n in s <==> n in before || n == last;
    }
  }

  /** A candidate stands here, for the first time. */
  predicate FirstAt(s: seq<Node>, keep: set<Node>, i: nat) {
    i < |s| && s[i] in keep && s[i] !in s[..i]
  }

  lemma {:induction false} FilterUpTo(s: seq<Node>, keep: set<Node>, n: nat) returns (f: seq<nat>)
    requires n <= |s|
    ensures Picks(f, n, (i: nat) => FirstAt(s, keep, i))
    ensures |Filter(s[..n], keep)| == |f| && forall k :: 0 <= k < |f| ==> f[k] < n && Filter(s[..n], keep)[k] == s[f[k]]
    decreases n
  {
    hide Picks;
    var p := (i: nat) => FirstAt(s, keep, i);
    if n == 0 {
      f := [];
      PicksNothing(p);
    } else {
      var g := FilterUpTo(s, keep, n - 1);
      PicksNext(g, n - 1, p);
      f := if p(n - 1) then g + [n - 1] else g;
      assert s[..n][..n - 1] == s[..n - 1] && s[..n][n - 1] == s[n - 1];
    }
  }

  /** The candidates are in layout order, each where it comes up first. */
  lemma FilterMeans(s: seq<Node>, keep: set<Node>) returns (f: seq<nat>)
    ensures Picks(f, |s|, (i: nat) => FirstAt(s, keep, i))
    ensures |Filter(s, keep)| == |f| && forall k :: 0 <= k < |f| ==> f[k] < |s| && Filter(s, keep)[k] == s[f[k]]
  {
    f := FilterUpTo(s, keep, |s|);
    assert s[..|s|] == s;
  }

  lemma {:induction false} DistinctSize(s: seq<Node>)
    requires Distinct(s)
    ensures |Elements(s)| == |s|
  {
    if s != [] {
      DistinctSize(s[..|s| - 1]);
      assert Elements(s) == Elements(s[..|s| - 1]) + {s[|s| - 1]};
    }
  }

  /** The candidates in layout order, each once. */
  method Candidates(layout: seq<Node>, admissible: set<Node>) returns (order: seq<Node>)
    ensures order == Filter(layout, admissible)
    ensures Distinct(order) && Elements(order) == Elements(layout) * admissible
  {
    order := [];
    for k := 0 to |layout|
      invariant order == Filter(layout[..k], admissible)
    {
      FilterMembers(layout[..k], admissible);
      assert layout[..k + 1][..k] == layout[..k];
      if layout[k] in admissible && layout[k] !in order {
        order := order + [layout[k]];
      }
    }
    assert layout[..|layout|] == layout;
    FilterMembers(layout, admissible);
  }

  /** How early a candidate is admitted: actionable or named ones, then their
    ancestors, then the rest. */
  ghost function Rank(parents: Parents, priority: seq<Node>, n: Node): nat {
    if n in priority then 0
    else if AboveSome(parents, priority, n) then 1 else 2
  }

  ghost predicate AboveSome(parents: Parents, nodes: seq<Node>, a: Node) {
    exists p :: p in nodes && IsAncestor(parents, p, a)
  }

  /** The selection rule: no candidate is taken while an earlier-ranked one is
    dropped; priority nodes and the rest are taken in layout order. */
  ghost predicate WellSelected(parents: Parents, order: seq<Node>, priority: seq<Node>, selected: set<Node>) {
    && (forall n, m :: n in order && n !in selected && m in selected ==>
          Rank(parents, priority, m) <= Rank(parents, priority, n))
    && (forall i, j :: 0 <= i < j < |priority| && priority[i] !in selected ==> priority[j] !in selected)
    && (forall i, j :: 0 <= i < j < |order| && order[i] !in selected && Rank(parents, priority, order[i]) == 2 ==>
          Rank(parents, priority, order[j]) < 2 || order[j] !in selected)
  }

  function Smaller(a: nat, b: nat): nat {
    if a <= b then a else b
  }

  /** Admit the candidate ancestors of one node while there is room. */
  method AdmitAncestors(parents: Parents, n: Node, candidates: set<Node>, limit: nat, before: set<Node>)
    returns (selected: set<Node>)
    requires |before| <= limit && before <= candidates
    ensures before <= selected <= candidates && |selected| <= limit
    ensures forall a :: a in selected - before ==> IsAncestor(parents, n, a)
    ensures |selected| == limit || forall a :: a in candidates && IsAncestor(parents, n, a) ==> a in selected
  {
    selected := before;
    var current := n;
    var seen: set<Node> := {};
    ghost var steps: nat := 0;
    while |selected| < limit && current < |parents|
      invariant Ancestor(parents, n, steps) == Some(current)
      invariant Passed(parents, n, seen, steps) && seen <= Linked(parents)
      invariant before <= selected <= candidates && |selected| <= limit
      invariant forall a :: a in selected - before ==> IsAncestor(parents, n, a)
      invariant seen * candidates <= selected
      decreases |Linked(parents) - seen|
    {
      hide Passed, Linked;
      if parents[current].None? || parents[current].value < 0 || parents[current].value in seen {
        EveryAncestorPassed(parents, n, seen, steps);
        return;
      }
      var parent: Node := parents[current].value;
      assert Ancestor(parents, n, steps + 1) == Some(parent);
      PassedOne(parents, n, seen, steps, parent);
      LinkedHas(parents, current);
      Shrinks(Linked(parents), seen, parent);
      seen := seen + {parent};
      if parent in candidates {
        selected := selected + {parent};
      }
      current := parent;
      steps := steps + 1;
    }
    if |selected| < limit {
      EveryAncestorPassed(parents, n, seen, steps);
    }
  }

  lemma EveryAncestorPassed(parents: Parents, n: Node, seen: set<Node>, steps: nat)
    requires Passed(parents, n, seen, steps)
    requires Ancestor(parents, n, steps + 1).Some? ==> Ancestor(parents, n, steps + 1).value in seen
    ensures forall a :: IsAncestor(parents, n, a) ==> a in seen
  {
    forall a | IsAncestor(parents, n, a) ensures a in seen {
      AllPassed(parents, n, seen, steps, a);
    }
  }

  /** The priority nodes that fit, then candidate ancestors of priority nodes. */
  method SelectPriority(parents: Parents, candidates: set<Node>, priority: seq<Node>, limit: nat)
    returns (selected: set<Node>)
    requires Distinct(priority) && Elements(priority) <= candidates
    ensures Elements(priority[..Smaller(limit, |priority|)]) <= selected <= candidates && |selected| <= limit
    ensures |priority| >= limit ==> selected == Elements(priority[..limit])
    ensures forall a :: a in selected && a !in priority ==> AboveSome(parents, priority, a)
    ensures |selected| == limit
      || forall a :: a in candidates && AboveSome(parents, priority, a) ==> a in selected
  {
    var first := priority[..Smaller(limit, |priority|)];
    DistinctSize(first);
    selected := Elements(first);
    for k := 0 to |priority|
      invariant Elements(first) <= selected <= candidates && |selected| <= limit
      invariant |priority| >= limit ==> selected == Elements(first)
      invariant forall a :: a in selected && a !in priority ==> AboveSome(parents, priority, a)
      invariant |selected| == limit
        || forall a :: a in candidates && AboveSome(parents, priority[..k], a) ==> a in selected
    {
      var more := AdmitAncestors(parents, priority[k], candidates, limit, selected);
      if |selected| == limit {
        SameSize(selected, more);
      }
      forall a | a in more - selected ensures AboveSome(parents, priority, a) {
        assert priority[k] in priority && IsAncestor(parents, priority[k], a);
      }
      forall a | AboveSome(parents, priority[..k + 1], a)
        ensures AboveSome(parents, priority[..k], a) || IsAncestor(parents, priority[k], a)
      {
        var p :| p in priority[..k + 1] && IsAncestor(parents, p, a);
        assert p in priority[..k] || p == priority[k];
      }
      selected := more;
    }
    assert priority[..|priority|] == priority;
  }

  lemma SameSize(a: set<Node>, b: set<Node>)
    requires a <= b && |b| <= |a|
    ensures a == b
  {
    assert b == a + (b - a);
  }

  /** What the three stages leave: priority nodes and ancestors first, then the
    layout order up to some point. */
  ghost predicate Staged(parents: Parents, order: seq<Node>, priority: seq<Node>, limit: nat, early: set<Node>,
                         k: nat, chosen: set<Node>) {
    && k <= |order| && chosen == early + Elements(order[..k]) <= Elements(order) && |chosen| <= limit
    && Elements(priority[..Smaller(limit, |priority|)]) <= early
    && (|priority| >= limit ==> early == Elements(priority[..limit]))
    && (forall a :: a in early && a !in priority ==> AboveSome(parents, priority, a))
    && (|early| == limit || forall a :: a in order && AboveSome(parents, priority, a) ==> a in early)
    && (|early| == limit ==> k == 0)
    && (k == |order| || |chosen| == limit)
  }

  lemma Prefixes(s: seq<Node>, i: nat, n: nat)
    ensures s[..|s|] == s && s[..0] == []
    ensures i < n <= |s| ==> s[i] in s[..n]
    ensures n <= |s| && Distinct(s) ==> |Elements(s[..n])| == n
    ensures i < |s| && n <= i && Distinct(s) ==> s[i] !in s[..n]
  {
    if i < n <= |s| { assert s[..n][i] == s[i]; }
    if n <= |s| && Distinct(s) { DistinctSize(s[..n]); }
  }

  lemma StagedIsRanked(parents: Parents, order: seq<Node>, priority: seq<Node>, limit: nat, early: set<Node>, k: nat,
                       chosen: set<Node>, n: Node, m: Node)
    requires Distinct(priority) && Staged(parents, order, priority, limit, early, k, chosen)
    requires n in order && n !in chosen && m in chosen
    ensures Rank(parents, priority, m) <= Rank(parents, priority, n)
  {
    hide AboveSome;
    Prefixes(order, 0, k);
    Prefixes(priority, 0, limit);
  }

  lemma StagedPriority(parents: Parents, order: seq<Node>, priority: seq<Node>, limit: nat, early: set<Node>, k: nat,
                       chosen: set<Node>, i: nat, j: nat)
    requires Distinct(priority) && Elements(priority) <= Elements(order)
    requires Staged(parents, order, priority, limit, early, k, chosen)
    requires i < j < |priority| && priority[i] !in chosen
    ensures priority[j] !in chosen
  {
    hide AboveSome;
    Prefixes(order, 0, k);
    Prefixes(priority, i, limit);
    assert priority[i] in priority;
  }

  lemma StagedRest(parents: Parents, order: seq<Node>, priority: seq<Node>, limit: nat, early: set<Node>, k: nat,
                   chosen: set<Node>, i: nat, j: nat)
    requires Distinct(order) && Staged(parents, order, priority, limit, early, k, chosen)
    requires i < j < |order| && order[i] !in chosen && Rank(parents, priority, order[j]) == 2
    ensures order[j] !in chosen
  {
    hide AboveSome;
    Prefixes(order, i, k);
  }

  /** Elements of the page, at most so many: in layout order, chosen by rank. */
  method Select(parents: Parents, order: seq<Node>, important: set<Node>, limit: nat)
    returns (result: seq<Node>, ghost selected: set<Node>)
    requires Distinct(order)
    ensures result == Filter(order, selected) && selected <= Elements(order)
    ensures |result| == Smaller(limit, |order|)
    ensures WellSelected(parents, order, Filter(order, important), selected)
  {
    hide WellSelected, Staged, Rank, AboveSome, Distinct, Filter;
    var candidates := Elements(order);
    var priority := Filter(order, important);
    FilterMembers(order, important);
    var chosen := SelectPriority(parents, candidates, priority, limit);
    var early := chosen;
    ghost var k;
    chosen, k := FillUp(order, limit, early);
    StagesMeet(parents, order, priority, limit, early, k, chosen);
    WellStaged(parents, order, priority, limit, early, k, chosen);
    StagedSize(parents, order, priority, limit, early, k, chosen);
    StagedInOrder(parents, order, priority, limit, early, k, chosen);
    selected := chosen;
    result := Filter(order, chosen);
  }

  lemma StagedInOrder(parents: Parents, order: seq<Node>, priority: seq<Node>, limit: nat, early: set<Node>, k: nat,
                      chosen: set<Node>)
    requires Staged(parents, order, priority, limit, early, k, chosen)
    ensures chosen <= Elements(order)
  {
  }

  /** The rest in layout order while there is room. */
  method FillUp(order: seq<Node>, limit: nat, early: set<Node>) returns (chosen: set<Node>, ghost k: nat)
    requires |early| <= limit && early <= Elements(order)
    ensures k <= |order| && chosen == early + Elements(order[..k]) <= Elements(order) && |chosen| <= limit
    ensures |early| == limit ==> k == 0
    ensures k == |order| || |chosen| == limit
  {
    chosen := early;
    var i := 0;
    assert order[..0] == [];
    while i < |order| && |chosen| < limit
      invariant 0 <= i <= |order| && |chosen| <= limit
      invariant chosen == early + Elements(order[..i]) <= Elements(order)
      invariant |early| == limit ==> i == 0
    {
      assert order[..i + 1] == order[..i] + [order[i]];
      assert Elements(order[..i + 1]) == Elements(order[..i]) + {order[i]};
      AddOne(chosen, order[i]);
      chosen := chosen + {order[i]};
      i := i + 1;
    }
    k := i;
  }

  lemma AddOne(s: set<Node>, n: Node)
    ensures |s + {n}| <= |s| + 1
  {
    if n in s { assert s + {n} == s; }
  }

  lemma StagesMeet(parents: Parents, order: seq<Node>, priority: seq<Node>, limit: nat, early: set<Node>, k: nat,
                   chosen: set<Node>)
    requires k <= |order| && chosen == early + Elements(order[..k]) <= Elements(order) && |chosen| <= limit
    requires Elements(priority[..Smaller(limit, |priority|)]) <= early
    requires |priority| >= limit ==> early == Elements(priority[..limit])
    requires forall a :: a in early && a !in priority ==> AboveSome(parents, priority, a)
    requires |early| == limit || forall a :: a in Elements(order) && AboveSome(parents, priority, a) ==> a in early
    requires |early| == limit ==> k == 0
    requires k == |order| || |chosen| == limit
    ensures Staged(parents, order, priority, limit, early, k, chosen)
  {
    hide AboveSome;
  }

  lemma WellStaged(parents: Parents, order: seq<Node>, priority: seq<Node>, limit: nat, early: set<Node>, k: nat,
                   chosen: set<Node>)
    requires Distinct(order) && Distinct(priority) && Elements(priority) <= Elements(order)
    requires Staged(parents, order, priority, limit, early, k, chosen)
    ensures WellSelected(parents, order, priority, chosen)
  {
    hide Staged, Rank, Distinct, Elements;
    forall n, m | n in order && n !in chosen && m in chosen
      ensures Rank(parents, priority, m) <= Rank(parents, priority, n)
    {
      StagedIsRanked(parents, order, priority, limit, early, k, chosen, n, m);
    }
    forall i, j | 0 <= i < j < |priority| && priority[i] !in chosen ensures priority[j] !in chosen {
      StagedPriority(parents, order, priority, limit, early, k, chosen, i, j);
    }
    forall i, j | 0 <= i < j < |order| && order[i] !in chosen && Rank(parents, priority, order[i]) == 2
      ensures Rank(parents, priority, order[j]) < 2 || order[j] !in chosen
    {
      if Rank(parents, priority, order[j]) >= 2 {
        RankIsSmall(parents, priority, order[j]);
        StagedRest(parents, order, priority, limit, early, k, chosen, i, j);
      }
    }
  }

  lemma RankIsSmall(parents: Parents, priority: seq<Node>, n: Node)
    ensures Rank(parents, priority, n) <= 2
  {
  }

  lemma StagedSize(parents: Parents, order: seq<Node>, priority: seq<Node>, limit: nat, early: set<Node>, k: nat,
                   chosen: set<Node>)
    requires Distinct(order) && Staged(parents, order, priority, limit, early, k, chosen)
    ensures |Filter(order, chosen)| == Smaller(limit, |order|)
  {
    hide AboveSome, Rank;
    FilterSize(order, chosen);
    Prefixes(order, 0, k);
    DistinctSize(order);
    SizeOrder(chosen, Elements(order));
    if k == |order| {
      assert order[..k] == order;
      assert chosen == Elements(order);
    }
  }

  lemma FilterSize(order: seq<Node>, chosen: set<Node>)
    requires chosen <= Elements(order)
    ensures |Filter(order, chosen)| == |chosen|
  {
    FilterMembers(order, chosen);
    DistinctSize(Filter(order, chosen));
    assert Elements(Filter(order, chosen)) == chosen;
  }

  lemma SizeOrder(a: set<Node>, b: set<Node>)
    requires a <= b
    ensures |a| <= |b|
  {
    assert b == a + (b - a);
  }

  // Parents and texts of the selected elements.

  /** Each element's parent among the elements. */
  method LinkParents(parents: Parents, result: seq<Node>) returns (links: map<Node, Node>)
    ensures forall n :: n in links ==> n in result && IsNearest(parents, n, Elements(result), links[n])
    ensures forall n, a :: n in result && n !in links && a in result ==> !IsAncestor(parents, n, a)
  {
    hide IsNearest, IsAncestor;
    links := map[];
    for k := 0 to |result|
      invariant forall n :: n in links ==> n in result && IsNearest(parents, n, Elements(result), links[n])
      invariant forall i, a :: 0 <= i < k && result[i] !in links && a in result ==> !IsAncestor(parents, result[i], a)
    {
      var nearest := Nearest(parents, result[k], Elements(result));
      if nearest.Some? {
        links := links[result[k] := nearest.value];
      }
    }
  }

  datatype Text = Text(node: Node, content: string)

  /** The text belongs to the element: it is the nearest one above, and no tag
    whose text is never shown lies between them. */
  ghost predicate Belongs(parents: Parents, text: Text, elements: set<Node>, blocked: set<Node>, e: Node) {
    e !in blocked && IsNearest(parents, text.node, elements + blocked, e)
  }

  lemma BelongsToOne(parents: Parents, text: Text, elements: set<Node>, blocked: set<Node>, e: Node, f: Node)
    requires Belongs(parents, text, elements, blocked, e) && Belongs(parents, text, elements, blocked, f)
    ensures e == f && e in elements
  {
    NearestIsUnique(parents, text.node, elements + blocked, e, f);
  }

  /** The texts of one element, in layout order. */
  ghost function TextsOf(parents: Parents, texts: seq<Text>, elements: set<Node>, blocked: set<Node>,
                         e: Node): seq<string> {
    if texts == [] then []
    else
      var before, last := TextsOf(parents, texts[..|texts| - 1], elements, blocked, e), texts[|texts| - 1];
      if Belongs(parents, last, elements, blocked, e) then before + [last.content] else before
  }

  function ChunksAt(chunks: map<Node, seq<string>>, e: Node): seq<string> {
    if e in chunks then chunks[e] else []
  }

  /** Hand every visible text to the element it belongs to. */
  method AttributeTexts(parents: Parents, texts: seq<Text>, elements: set<Node>, blocked: set<Node>)
    returns (chunks: map<Node, seq<string>>)
    ensures chunks.Keys <= elements
    ensures forall e :: ChunksAt(chunks, e) == TextsOf(parents, texts, elements, blocked, e)
  {
    hide IsNearest, IsAncestor;
    chunks := map[];
    for k := 0 to |texts|
      invariant chunks.Keys <= elements
      invariant forall e :: ChunksAt(chunks, e) == TextsOf(parents, texts[..k], elements, blocked, e)
    {
      var text := texts[k];
      assert texts[..k + 1][..k] == texts[..k];
      var target := Nearest(parents, text.node, elements + blocked);
      if target.Some? && target.value !in blocked {
        assert Belongs(parents, text, elements, blocked, target.value);
        forall e | Belongs(parents, text, elements, blocked, e) ensures e == target.value && e in elements {
          BelongsToOne(parents, text, elements, blocked, e, target.value);
        }
        chunks := chunks[target.value := ChunksAt(chunks, target.value) + [text.content]];
      } else {
        forall e ensures !Belongs(parents, text, elements, blocked, e) {
          NoTarget(parents, text, elements, blocked, target, e);
        }
      }
    }
    assert texts[..|texts|] == texts;
  }

  lemma NoTarget(parents: Parents, text: Text, elements: set<Node>, blocked: set<Node>, target: Option<Node>, e: Node)
    requires target.Some? ==> target.value in blocked && IsNearest(parents, text.node, elements + blocked, target.value)
    requires target.None? ==> forall a :: a in elements + blocked ==> !IsAncestor(parents, text.node, a)
    ensures !Belongs(parents, text, elements, blocked, e)
  {
    if IsNearest(parents, text.node, elements + blocked, e) {
      if target.Some? {
        NearestIsUnique(parents, text.node, elements + blocked, e, target.value);
      } else {
        assert e in elements + blocked && IsAncestor(parents, text.node, e);
      }
    }
  }

  ghost predicate BelongsAt(parents: Parents, texts: seq<Text>, elements: set<Node>, blocked: set<Node>, e: Node, i: nat) {
    i < |texts| && Belongs(parents, texts[i], elements, blocked, e)
  }

  lemma {:induction false} TextsUpTo(parents: Parents, texts: seq<Text>, elements: set<Node>, blocked: set<Node>,
                                     e: Node, n: nat) returns (f: seq<nat>)
    requires n <= |texts|
    ensures Picks(f, n, (i: nat) => BelongsAt(parents, texts, elements, blocked, e, i))
    ensures var shown := TextsOf(parents, texts[..n], elements, blocked, e);
      |shown| == |f| && forall k :: 0 <= k < |f| ==> f[k] < n && shown[k] == texts[f[k]].content
    decreases n
  {
    hide Picks, Belongs;
    var p := (i: nat) => BelongsAt(parents, texts, elements, blocked, e, i);
    if n == 0 {
      f := [];
      PicksNothing(p);
    } else {
      var g := TextsUpTo(parents, texts, elements, blocked, e, n - 1);
      PicksNext(g, n - 1, p);
      f := if p(n - 1) then g + [n - 1] else g;
      assert texts[..n][..n - 1] == texts[..n - 1] && texts[..n][n - 1] == texts[n - 1];
    }
  }

  /** The texts of an element are, in layout order, those that belong to it. */
  lemma TextsMean(parents: Parents, texts: seq<Text>, elements: set<Node>, blocked: set<Node>, e: Node)
    returns (f: seq<nat>)
    ensures Picks(f, |texts|, (i: nat) => BelongsAt(parents, texts, elements, blocked, e, i))
    ensures var shown := TextsOf(parents, texts, elements, blocked, e);
      |shown| == |f| && forall k :: 0 <= k < |f| ==> f[k] < |texts| && shown[k] == texts[f[k]].content
  {
    f := TextsUpTo(parents, texts, elements, blocked, e, |texts|);
    assert texts[..|texts|] == texts;
  }
}
