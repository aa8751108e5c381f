/** The closure walk computes reachability. */
module ClosureTheorems {
  import opened Options
  import opened Closure

  /** A dependency chain through resolved packages. */
  ghost predicate Chain(w: World, resolved: set<string>, path: seq<string>) {
    && path != []
    && forall i | 0 <= i < |path| - 1 :: path[i] in resolved && path[i + 1] in Deps(w, path[i])
  }

  /** Reachable from the seeds through the dependencies of resolved packages. */
  ghost predicate Reachable(w: World, seeds: seq<string>, resolved: set<string>, name: string) {
    exists path :: Chain(w, resolved, path) && path[0] in seeds && path[|path| - 1] == name
  }

  ghost function Names(s: seq<string>): set<string> {
    set n | n in s
  }

  predicate NoDuplicates(s: seq<string>) {
    forall i, j | 0 <= i < j < |s| :: s[i] != s[j]
  }

  /** The name was tried at a moment when it was not there, and could not be had. */
  ghost predicate TriedInVain(w: World, from: set<string>, name: string) {
    exists tree: Tree :: from <= tree.present && !Obtains(w, tree, name)
  }

  ghost predicate Tally(w: World, from: set<string>, c: Walk) {
    && c.seen == Names(c.resolved) + Names(c.missing)
    && Names(c.resolved) !! Names(c.missing)
    && NoDuplicates(c.resolved) && NoDuplicates(c.missing)
    && from <= c.tree.present && Names(c.resolved) <= c.tree.present
    && (forall n | n in c.missing :: TriedInVain(w, from, n))
  }

  /** Nothing met is forgotten. */
  ghost predicate Complete(w: World, seeds: seq<string>, c: Walk) {
    && (forall s | s in seeds :: s in c.seen || s in c.queue)
    && (forall r, d | r in c.resolved && d in Deps(w, r) :: d in c.seen || d in c.queue)
  }

  /** Nothing unreachable is met. */
  ghost predicate Sound(w: World, seeds: seq<string>, c: Walk) {
    forall n | n in c.seen || n in c.queue :: Reachable(w, seeds, Names(c.resolved), n)
  }

  lemma VisitTallies(w: World, from: set<string>, c: Walk)
    requires c.queue != [] && Tally(w, from, c)
    ensures Tally(w, from, Visit(w, c))
  {
  }

  lemma VisitStaysComplete(w: World, seeds: seq<string>, c: Walk)
    requires c.queue != [] && Complete(w, seeds, c)
    ensures Complete(w, seeds, Visit(w, c))
  {
    var name := c.queue[0];
    UnseenElements(Deps(w, name), c.seen + {name});
    forall n | n in c.queue ensures n == name || n in c.queue[1..] {
    }
  }

  lemma MoreResolved(w: World, seeds: seq<string>, r1: set<string>, r2: set<string>, name: string)
    requires Reachable(w, seeds, r1, name) && r1 <= r2
    ensures Reachable(w, seeds, r2, name)
  {
  }

  lemma ReachDependency(w: World, seeds: seq<string>, resolved: set<string>, name: string, d: string)
    requires Reachable(w, seeds, resolved, name) && name in resolved && d in Deps(w, name)
    ensures Reachable(w, seeds, resolved, d)
  {
    var path :| Chain(w, resolved, path) && path[0] in seeds && path[|path| - 1] == name;
    var longer := path + [d];
    forall i | 0 <= i < |longer| - 1 ensures longer[i] in resolved && longer[i + 1] in Deps(w, longer[i]) {
      if i < |path| - 1 {
        assert longer[i] == path[i] && longer[i + 1] == path[i + 1];
      }
    }
    assert Chain(w, resolved, longer) && longer[0] == path[0];
  }

  lemma VisitStaysSound(w: World, seeds: seq<string>, c: Walk)
    requires c.queue != [] && Sound(w, seeds, c)
    ensures Sound(w, seeds, Visit(w, c))
  {
    var name := c.queue[0];
    var v := Visit(w, c);
    UnseenElements(Deps(w, name), c.seen + {name});
    assert Names(c.resolved) <= Names(v.resolved);
    assert v.resolved != c.resolved ==> name in Names(v.resolved) by {
      if v.resolved != c.resolved {
        assert v.resolved[|v.resolved| - 1] == name;
      }
    }
    forall n | n in v.seen || n in v.queue ensures Reachable(w, seeds, Names(v.resolved), n) {
      MoreResolved(w, seeds, Names(c.resolved), Names(v.resolved), name);
      if n in c.seen || n in c.queue {
        MoreResolved(w, seeds, Names(c.resolved), Names(v.resolved), n);
      } else {
        ReachDependency(w, seeds, Names(v.resolved), name, n);
      }
    }
  }

  lemma {:induction false} CloseKeeps(w: World, seeds: seq<string>, from: set<string>, c: Walk, u: set<string>)
    requires Within(w, c, u) && Tally(w, from, c) && Complete(w, seeds, c) && Sound(w, seeds, c)
    ensures var end := Close(w, c, u);
            end.queue == [] && Tally(w, from, end) && Complete(w, seeds, end) && Sound(w, seeds, end)
    decreases |u - c.seen|, |c.queue|
  {
    if c.queue != [] {
      VisitShrinks(w, c, u);
      VisitTallies(w, from, c);
      VisitStaysComplete(w, seeds, c);
      VisitStaysSound(w, seeds, c);
      CloseKeeps(w, seeds, from, Visit(w, c), u);
    }
  }

  lemma {:induction false} ChainIsSeen(w: World, seeds: seq<string>, c: Walk, path: seq<string>, i: nat)
    requires Complete(w, seeds, c) && c.queue == [] && c.seen == Names(c.resolved) + Names(c.missing)
    requires Chain(w, Names(c.resolved), path) && path[0] in seeds && i < |path|
    ensures path[i] in c.seen
  {
    if i > 0 {
      ChainIsSeen(w, seeds, c, path, i - 1);
      assert path[i - 1] in c.resolved;
    }
  }

  lemma StartIsFine(w: World, seeds: seq<string>, tree: Tree)
    ensures var c := Start(tree, seeds);
            Within(w, c, Universe(w, seeds)) && Tally(w, tree.present, c) && Complete(w, seeds, c) && Sound(w, seeds, c)
  {
    var c := Start(tree, seeds);
    forall n | n in c.queue ensures Reachable(w, seeds, Names(c.resolved), n) {
      assert Chain(w, Names(c.resolved), [n]);
    }
  }

  /** The worklist is reachability: what was resolved and what is missing are
      duplicate-free, disjoint, and together exactly the names reachable from the
      seeds through dependencies of resolved packages. */
  lemma WorklistIsReachability(w: World, seeds: seq<string>, tree: Tree, name: string)
    ensures Within(w, Start(tree, seeds), Universe(w, seeds))
    ensures var end := Close(w, Start(tree, seeds), Universe(w, seeds));
            && NoDuplicates(end.resolved) && NoDuplicates(end.missing)
            && Names(end.resolved) !! Names(end.missing)
            && (name in end.resolved || name in end.missing <==> Reachable(w, seeds, Names(end.resolved), name))
  {
    StartIsFine(w, seeds, tree);
    var end := Close(w, Start(tree, seeds), Universe(w, seeds));
    CloseKeeps(w, seeds, tree.present, Start(tree, seeds), Universe(w, seeds));
    if Reachable(w, seeds, Names(end.resolved), name) {
      var path :| Chain(w, Names(end.resolved), path) && path[0] in seeds && path[|path| - 1] == name;
      ChainIsSeen(w, seeds, end, path, |path| - 1);
      assert name in Names(end.resolved) || name in Names(end.missing);
    }
    if name in end.resolved || name in end.missing {
      assert name in Names(end.resolved) || name in Names(end.missing);
    }
  }

  /** With nothing missing, every package reachable through any dependency at all
      is present; and a missing package was tried at a moment when it was not there
      and could not be had. */
  lemma NothingMissingMeansComplete(w: World, seeds: seq<string>, tree: Tree)
    ensures Within(w, Start(tree, seeds), Universe(w, seeds))
    ensures var end := Close(w, Start(tree, seeds), Universe(w, seeds));
            && tree.present <= end.tree.present
            && (forall n | n in end.missing :: TriedInVain(w, tree.present, n))
            && (end.missing == [] ==>
                  forall path | Chain(w, w.manifests.Keys, path) && path[0] in seeds :: path[|path| - 1] in end.tree.present)
  {
    StartIsFine(w, seeds, tree);
    var end := Close(w, Start(tree, seeds), Universe(w, seeds));
    CloseKeeps(w, seeds, tree.present, Start(tree, seeds), Universe(w, seeds));
    if end.missing == [] {
      forall path | Chain(w, w.manifests.Keys, path) && path[0] in seeds ensures path[|path| - 1] in end.tree.present {
        AllResolved(w, seeds, end, path, |path| - 1);
      }
    }
  }

  lemma {:induction false} AllResolved(w: World, seeds: seq<string>, end: Walk, path: seq<string>, i: nat)
    requires Complete(w, seeds, end) && end.queue == [] && end.missing == []
    requires end.seen == Names(end.resolved) + Names(end.missing) && Names(end.resolved) <= end.tree.present
    requires Chain(w, w.manifests.Keys, path) && path[0] in seeds && i < |path|
    ensures path[i] in end.resolved && path[i] in end.tree.present
  {
    if i > 0 {
      AllResolved(w, seeds, end, path, i - 1);
    }
    assert path[i] in end.seen;
    assert path[i] in Names(end.resolved);
  }

  // ---- when a missing name stays absent -------------------------------------

  /** The walk from the given seeds and tree, when it has ended. */
  ghost function Finish(w: World, seeds: seq<string>, tree: Tree): Walk {
    StartIsFine(w, seeds, tree);
    Close(w, Start(tree, seeds), Universe(w, seeds))
  }

  /** No name reported missing is in the tree in the end. */
  ghost predicate AbsentInTheEnd(w: World, seeds: seq<string>, tree: Tree) {
    forall m | m in Finish(w, seeds, tree).missing :: m !in Finish(w, seeds, tree).tree.present
  }

  /** Visiting the name would copy it from the store. */
  predicate Copies(w: World, tree: Tree, name: string) {
    name !in tree.present && w.hits.Some? && name in w.hits.value && name !in tree.bare
  }

  /** A copy that stops does not leave its own manifest behind, and no copy brings a
      name that the store lacks or that was a bare directory. */
  ghost predicate Tidy(w: World) {
    forall tree: Tree, n, m | Copies(w, tree, n) && m in w.copy(n, tree).brought && m !in tree.present ::
      if m == n then w.copy(n, tree).ok else m in w.hits.value && m !in tree.bare
  }

  /** A copy creates the directory of its package, and directories do not go away. */
  ghost predicate LeavesDirectories(w: World) {
    forall tree: Tree, n, d | Copies(w, tree, n) && (d == n || d in tree.bare) ::
      d in w.copy(n, tree).brought || d in w.copy(n, tree).bare
  }

  /** Missing names are absent, and visiting them again would not copy them. */
  ghost predicate Gone(w: World, c: Walk) {
    forall m | m in c.missing ::
      m !in c.tree.present && (w.hits.None? || m !in w.hits.value || m in c.tree.bare)
  }

  lemma VisitKeepsGone(w: World, c: Walk)
    requires c.queue != [] && Tidy(w) && LeavesDirectories(w) && Gone(w, c)
    ensures Gone(w, Visit(w, c))
  {
    var name := c.queue[0];
    var v := Visit(w, c);
    if name !in c.seen && Copies(w, c.tree, name) {
      forall m | m in v.missing
        ensures m !in v.tree.present && (m !in w.hits.value || m in v.tree.bare)
      {
        if m in c.missing {
          assert m !in w.hits.value || m in c.tree.bare;
        }
      }
    }
  }

  lemma {:induction false} CloseKeepsGone(w: World, c: Walk, u: set<string>)
    requires Within(w, c, u) && Tidy(w) && LeavesDirectories(w) && Gone(w, c)
    ensures Gone(w, Close(w, c, u))
    decreases |u - c.seen|, |c.queue|
  {
    hide Tidy, LeavesDirectories, Gone, Visit;
    if c.queue != [] {
      VisitShrinks(w, c, u);
      VisitKeepsGone(w, c);
      CloseKeepsGone(w, Visit(w, c), u);
    }
  }

  lemma {:induction false} CloseGrows(w: World, c: Walk, u: set<string>)
    requires Within(w, c, u)
    ensures c.missing <= Close(w, c, u).missing && c.tree.present <= Close(w, c, u).tree.present
    decreases |u - c.seen|, |c.queue|
  {
    if c.queue != [] {
      VisitShrinks(w, c, u);
      CloseGrows(w, Visit(w, c), u);
    }
  }

  lemma VisitMisses(w: World, c: Walk)
    requires c.queue != [] && c.queue[0] !in c.seen && !Obtains(w, c.tree, c.queue[0])
    ensures Visit(w, c) == Walk(Materialized(w, c.tree, c.queue[0]).1, c.queue[1..], c.seen + {c.queue[0]},
                                c.resolved, c.missing + [c.queue[0]])
  {
  }

  lemma VisitBrings(w: World, c: Walk)
    requires c.queue != [] && c.queue[0] !in c.seen
    ensures Visit(w, c).tree == Materialized(w, c.tree, c.queue[0]).1 && c.missing <= Visit(w, c).missing
  {
  }

  lemma CloseVisits(w: World, c: Walk, u: set<string>)
    requires Within(w, c, u) && c.queue != []
    ensures Within(w, Visit(w, c), u) && Close(w, c, u) == Close(w, Visit(w, c), u)
  {
    VisitShrinks(w, c, u);
  }

  /** A walk that reaches a missing name in its tree ends with it there. */
  lemma NotAbsent(w: World, seeds: seq<string>, tree: Tree, c: Walk, m: string)
    requires Within(w, c, Universe(w, seeds)) && Finish(w, seeds, tree) == Close(w, c, Universe(w, seeds))
    requires m in c.missing && m in c.tree.present
    ensures !AbsentInTheEnd(w, seeds, tree)
  {
    CloseGrows(w, c, Universe(w, seeds));
    assert m in Finish(w, seeds, tree).missing;
  }

  /** In any world: a name whose own copy stops after the manifest was written is
      reported missing while it is there. */
  lemma HalfCopyIsReportedMissing(w: World, tree: Tree, name: string)
    requires Copies(w, tree, name) && !w.copy(name, tree).ok && name in w.copy(name, tree).brought
    ensures !AbsentInTheEnd(w, [name], tree)
  {
    hide Visit, Within, Universe, AbsentInTheEnd;
    var c := Start(tree, [name]);
    StartIsFine(w, [name], tree);
    CloseVisits(w, c, Universe(w, [name]));
    VisitMisses(w, c);
    NotAbsent(w, [name], tree, Visit(w, c), name);
  }

  /** In any world: a name that cannot be had, and that the next copy brings, is
      reported missing and there in the end. */
  lemma MissedThenBrought(w: World, tree: Tree, name: string, next: string)
    requires next != name && !Obtains(w, tree, name)
    requires name in Materialized(w, Materialized(w, tree, name).1, next).1.present
    ensures !AbsentInTheEnd(w, [name, next], tree)
  {
    hide Visit, Within, Universe, AbsentInTheEnd, Materialized, Obtains;
    var seeds := [name, next];
    var u := Universe(w, seeds);
    var c := Start(tree, seeds);
    StartIsFine(w, seeds, tree);
    CloseVisits(w, c, u);
    VisitMisses(w, c);
    var c1 := Visit(w, c);
    assert c1.queue == [next] && c1.seen == {name};
    CloseVisits(w, c1, u);
    VisitBrings(w, c1);
    assert c1.missing == [name] && Visit(w, c1).missing[0] == name;
    NotAbsent(w, seeds, tree, Visit(w, c1), name);
  }

  /** Exactly when the report can be trusted: with directories as a file system
      keeps them, no walk from any tree and any seeds reports a name missing that is
      there in the end if and only if the copies are tidy. */
  lemma AbsenceIsFinalIff(w: World)
    requires LeavesDirectories(w)
    ensures (forall seeds, tree :: AbsentInTheEnd(w, seeds, tree)) <==> Tidy(w)
  {
    if Tidy(w) {
      forall seeds, tree ensures AbsentInTheEnd(w, seeds, tree) {
        StartIsFine(w, seeds, tree);
        CloseKeepsGone(w, Start(tree, seeds), Universe(w, seeds));
      }
    } else {
      UntidyFails(w);
    }
  }

  lemma UntidyFails(w: World)
    requires !Tidy(w)
    ensures exists seeds, tree :: !AbsentInTheEnd(w, seeds, tree)
  {
    var tree: Tree, n, m :| Copies(w, tree, n) && m in w.copy(n, tree).brought && m !in tree.present &&
                            !(if m == n then w.copy(n, tree).ok else m in w.hits.value && m !in tree.bare);
    if m == n {
      HalfCopyIsReportedMissing(w, tree, n);
    } else {
      MissedThenBrought(w, tree, m, n);
    }
  }

  /** The simplest store for which the report can be trusted, from a tree without
      bare directories: every copy succeeds, brings its own name and no name the
      store lacks, and leaves no bare directory. */
  ghost predicate Flawless(w: World) {
    forall tree: Tree, n | Copies(w, tree, n) ::
      w.copy(n, tree).ok && n in w.copy(n, tree).brought && w.copy(n, tree).bare == {} &&
      w.copy(n, tree).brought <= w.hits.value
  }

  lemma FlawlessVisit(w: World, c: Walk)
    requires c.queue != [] && Flawless(w) && Gone(w, c) && c.tree.bare == {}
    ensures Gone(w, Visit(w, c)) && Visit(w, c).tree.bare == {}
  {
  }

  lemma {:induction false} FlawlessCloses(w: World, c: Walk, u: set<string>)
    requires Within(w, c, u) && Flawless(w) && Gone(w, c) && c.tree.bare == {}
    ensures Gone(w, Close(w, c, u))
    decreases |u - c.seen|, |c.queue|
  {
    hide Flawless, Gone, Visit;
    if c.queue != [] {
      VisitShrinks(w, c, u);
      FlawlessVisit(w, c);
      FlawlessCloses(w, Visit(w, c), u);
    }
  }

  lemma FlawlessStoreIsTrusted(w: World, seeds: seq<string>, tree: Tree)
    requires Flawless(w) && tree.bare == {}
    ensures AbsentInTheEnd(w, seeds, tree)
  {
    StartIsFine(w, seeds, tree);
    FlawlessCloses(w, Start(tree, seeds), Universe(w, seeds));
  }

  /** Three failing inputs: a package visited later brings a missing one along; a
      copy stops after it wrote the manifest; and a copy leaves nothing at
      all, not even its directory, and a later one brings its name. */
  lemma MissingCanBePresent()
    ensures var w := World(Some({"b"}), (name, tree) => Copy(true, {"a", "b"}, {}), map[]);
            !AbsentInTheEnd(w, ["a", "b"], Tree({}, {}))
    ensures var w := World(Some({"a"}), (name, tree) => Copy(false, {"a"}, {}), map[]);
            !AbsentInTheEnd(w, ["a"], Tree({}, {}))
    ensures var w := World(Some({"a", "b"}), (name, tree) => if name == "a" then Copy(false, {}, {}) else Copy(true, {"a", "b"}, {}),
                           map[]);
            !AbsentInTheEnd(w, ["a", "b"], Tree({}, {}))
  {
    var later := World(Some({"b"}), (name, tree) => Copy(true, {"a", "b"}, {}), map[]);
    MissedThenBrought(later, Tree({}, {}), "a", "b");
    var half := World(Some({"a"}), (name, tree) => Copy(false, {"a"}, {}), map[]);
    HalfCopyIsReportedMissing(half, Tree({}, {}), "a");
    var gone := World(Some({"a", "b"}), (name, tree) => if name == "a" then Copy(false, {}, {}) else Copy(true, {"a", "b"}, {}),
                      map[]);
    MissedThenBrought(gone, Tree({}, {}), "a", "b");
  }
}
