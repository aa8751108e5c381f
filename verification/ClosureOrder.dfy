/** In which order the closure walk resolves, and what a second walk does. */
module ClosureOrder {
  import opened Options
  import opened Closure
  import opened ClosureTheorems

  /** The names that are not known yet, each where it first occurs. */
  function Firsts(names: seq<string>, known: set<string>): seq<string> {
    if names == [] then []
    else if names[0] in known then Firsts(names[1..], known)
    else [names[0]] + Firsts(names[1..], known + {names[0]})
  }

  /** The dependency lists of some packages, one after the other. */
  function AllDeps(w: World, names: seq<string>): seq<string> {
    if names == [] then [] else AllDeps(w, names[..|names| - 1]) + Deps(w, names[|names| - 1])
  }

  /** The names of a list that are in a set, in the order of the list. */
  function Kept(names: seq<string>, some: set<string>): seq<string> {
    if names == [] then []
    else Kept(names[..|names| - 1], some) + if names[|names| - 1] in some then [names[|names| - 1]] else []
  }

  lemma {:induction false} FirstsOfBoth(a: seq<string>, b: seq<string>, known: set<string>)
    ensures Firsts(a + b, known) == Firsts(a, known) + Firsts(b, known + Names(a))
  {
    if a == [] {
      assert a + b == b && known + Names(a) == known;
    } else {
      assert (a + b)[0] == a[0] && (a + b)[1..] == a[1..] + b;
      if a[0] in known {
        FirstsOfBoth(a[1..], b, known);
        assert known + Names(a[1..]) == known + Names(a) by { NamesOf(a); }
      } else {
        FirstsOfBoth(a[1..], b, known + {a[0]});
        assert known + {a[0]} + Names(a[1..]) == known + Names(a) by { NamesOf(a); }
      }
    }
  }

  lemma NamesOf(a: seq<string>)
    requires a != []
    ensures Names(a) == {a[0]} + Names(a[1..])
  {
    assert a == [a[0]] + a[1..];
  }

  lemma {:induction false} FirstsElements(names: seq<string>, known: set<string>)
    ensures Names(Firsts(names, known)) == Names(names) - known
  {
    if names != [] {
      NamesOf(names);
      if names[0] in known {
        FirstsElements(names[1..], known);
      } else {
        FirstsElements(names[1..], known + {names[0]});
        NamesOf(Firsts(names, known));
      }
    }
  }

  /** Leaving out known names first makes no difference. */
  lemma {:induction false} FirstsOfUnseen(names: seq<string>, seen: set<string>, known: set<string>)
    requires seen <= known
    ensures Firsts(Unseen(names, seen), known) == Firsts(names, known)
  {
    if names != [] {
      var rest := Unseen(names[1..], seen);
      if names[0] in known {
        FirstsOfUnseen(names[1..], seen, known);
        assert Unseen(names, seen) == if names[0] in seen then rest else [names[0]] + rest;
      } else {
        FirstsOfUnseen(names[1..], seen, known + {names[0]});
        assert Unseen(names, seen)[1..] == rest;
      }
    }
  }

  lemma {:induction false} KeptSame(names: seq<string>, some: set<string>, name: string)
    requires name !in names
    ensures Kept(names, some + {name}) == Kept(names, some)
  {
    if names != [] {
      KeptSame(names[..|names| - 1], some, name);
    }
  }

  /** Everything met so far, in the order of meeting it. */
  function Met(w: World, seeds: seq<string>, c: Walk): seq<string> {
    seeds + AllDeps(w, c.resolved)
  }

  /** Some order of the names visited, first met first, and what is still queued. */
  ghost predicate InOrder(w: World, seeds: seq<string>, c: Walk, visited: seq<string>) {
    && Names(visited) == c.seen
    && Firsts(Met(w, seeds, c), {}) == visited + Firsts(c.queue, c.seen)
    && Names(c.resolved) + Names(c.missing) == c.seen
    && Kept(visited, Names(c.resolved)) == c.resolved
    && Kept(visited, Names(c.missing)) == c.missing
  }

  lemma KeptNext(visited: seq<string>, name: string, some: set<string>)
    requires name !in visited
    ensures Kept(visited + [name], some + {name}) == Kept(visited, some) + [name]
    ensures name !in some ==> Kept(visited + [name], some) == Kept(visited, some)
    ensures Names(visited + [name]) == Names(visited) + {name}
  {
    assert (visited + [name])[..|visited|] == visited;
    KeptSame(visited, some, name);
  }

  /** The dependencies of a name just visited go behind what is queued. */
  lemma FirstsExtend(met: seq<string>, before: seq<string>, rest: seq<string>, deps: seq<string>, seen: set<string>)
    requires Firsts(met, {}) == before + Firsts(rest, seen) && Names(met) == seen + Names(rest)
    ensures Firsts(met + deps, {}) == before + Firsts(rest + Unseen(deps, seen), seen)
  {
    hide Firsts, Unseen;
    FirstsOfBoth(met, deps, {});
    FirstsOfBoth(rest, Unseen(deps, seen), seen);
    FirstsOfUnseen(deps, seen, seen + Names(rest));
    assert {} + Names(met) == seen + Names(rest);
  }

  lemma VisitMeets(w: World, seeds: seq<string>, c: Walk, visited: seq<string>)
    requires c.queue != [] && c.queue[0] !in c.seen && InOrder(w, seeds, c, visited)
    ensures var v := Visit(w, c);
            Firsts(Met(w, seeds, v), {}) == visited + [c.queue[0]] + Firsts(v.queue, v.seen)
  {
    hide AllDeps, Materialized, Obtains, Kept;
    var name, rest, met := c.queue[0], c.queue[1..], Met(w, seeds, c);
    var seen := c.seen + {name};
    assert Firsts(met, {}) == visited + [name] + Firsts(rest, seen);
    MetIsSeenOrQueued(w, seeds, c, visited);
    FirstsExtend(met, visited + [name], rest, Deps(w, name), seen);
    if Obtains(w, c.tree, name) {
      AllDepsNext(w, c.resolved, name);
      assert Met(w, seeds, Visit(w, c)) == met + Deps(w, name);
    }
  }

  lemma AllDepsNext(w: World, names: seq<string>, name: string)
    ensures AllDeps(w, names + [name]) == AllDeps(w, names) + Deps(w, name)
  {
    assert (names + [name])[..|names|] == names;
  }

  lemma MetIsSeenOrQueued(w: World, seeds: seq<string>, c: Walk, visited: seq<string>)
    requires c.queue != [] && InOrder(w, seeds, c, visited)
    ensures Names(Met(w, seeds, c)) == c.seen + {c.queue[0]} + Names(c.queue[1..])
  {
    var met, queued := Met(w, seeds, c), Firsts(c.queue, c.seen);
    FirstsElements(met, {});
    FirstsElements(c.queue, c.seen);
    assert Names(visited + queued) == Names(visited) + Names(queued);
    NamesOf(c.queue);
  }

  lemma VisitKeepsOrder(w: World, seeds: seq<string>, c: Walk, visited: seq<string>)
    requires c.queue != [] && InOrder(w, seeds, c, visited)
    ensures InOrder(w, seeds, Visit(w, c), if c.queue[0] in c.seen then visited else visited + [c.queue[0]])
  {
    var name := c.queue[0];
    if name !in c.seen {
      VisitMeets(w, seeds, c, visited);
      assert name !in visited && name !in Names(c.resolved) && name !in Names(c.missing);
      KeptNext(visited, name, Names(c.resolved));
      KeptNext(visited, name, Names(c.missing));
      assert Names(c.resolved + [name]) == Names(c.resolved) + {name};
      assert Names(c.missing + [name]) == Names(c.missing) + {name};
    }
  }

  lemma {:induction false} CloseKeepsOrder(w: World, seeds: seq<string>, c: Walk, u: set<string>, visited: seq<string>)
    requires Within(w, c, u) && InOrder(w, seeds, c, visited)
    ensures Close(w, c, u).queue == [] && exists all :: InOrder(w, seeds, Close(w, c, u), all)
    decreases |u - c.seen|, |c.queue|
  {
    hide InOrder, Visit;
    if c.queue != [] {
      VisitShrinks(w, c, u);
      VisitKeepsOrder(w, seeds, c, visited);
      CloseKeepsOrder(w, seeds, Visit(w, c), u, if c.queue[0] in c.seen then visited else visited + [c.queue[0]]);
    }
  }

  /** The walk is breadth first: list the seeds, then the dependencies of every
      resolved package in the order of resolving; what is resolved, and what is
      missing, is in the order of first occurrence there. */
  lemma ResolvesBreadthFirst(w: World, seeds: seq<string>, tree: Tree)
    ensures Within(w, Start(tree, seeds), Universe(w, seeds))
    ensures var end := Close(w, Start(tree, seeds), Universe(w, seeds));
            var met := Firsts(seeds + AllDeps(w, end.resolved), {});
            && end.resolved == Kept(met, Names(end.resolved))
            && end.missing == Kept(met, Names(end.missing))
            && Names(met) == Names(end.resolved) + Names(end.missing)
  {
    var start := Start(tree, seeds);
    var end := Close(w, start, Universe(w, seeds));
    assert seeds + AllDeps(w, []) == seeds;
    assert InOrder(w, seeds, start, []);
    CloseKeepsOrder(w, seeds, start, Universe(w, seeds), []);
    var all :| InOrder(w, seeds, end, all);
    assert Firsts(Met(w, seeds, end), {}) == all;
  }

  // ---- running it again -------------------------------------------------------

  lemma {:induction false} SameWalk(w: World, c: Walk, u: set<string>)
    requires Within(w, c, u) && Close(w, c, u).missing == []
    ensures Close(w, c.(tree := Close(w, c, u).tree), u) == Close(w, c, u)
    decreases |u - c.seen|, |c.queue|
  {
    if c.queue != [] {
      var name, end := c.queue[0], Close(w, c, u);
      VisitShrinks(w, c, u);
      CloseGrows(w, Visit(w, c), u);
      SameWalk(w, Visit(w, c), u);
      var again := c.(tree := end.tree);
      if name !in c.seen {
        assert Obtains(w, c.tree, name);
        assert name in Visit(w, c).tree.present;
      }
      assert Visit(w, again) == Visit(w, c).(tree := end.tree);
      CloseVisits(w, again, u);
    }
  }

  /** Once nothing is missing, doing it again copies nothing and reports the same. */
  lemma SecondRunChangesNothing(w: World, seeds: seq<string>, tree: Tree)
    ensures Within(w, Start(tree, seeds), Universe(w, seeds))
    ensures var end := Close(w, Start(tree, seeds), Universe(w, seeds));
            end.missing == [] ==> Close(w, Start(end.tree, seeds), Universe(w, seeds)) == end
  {
    var start := Start(tree, seeds);
    if Close(w, start, Universe(w, seeds)).missing == [] {
      SameWalk(w, start, Universe(w, seeds));
    }
  }
}
