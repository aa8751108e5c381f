/** The breadth-first dependency closure that fills a node_modules tree. The file
    system is abstracted to the packages of the destination and to what copying a
    package of the store does to them, which may be anything that keeps manifests. */
module Closure {
  import opened Options

  /** The destination: packages with a manifest, and directories without one. */
  datatype Tree = Tree(present: set<string>, bare: set<string>)

  /** What copying a store package did: whether an I/O error stopped it, the names
      that have a manifest now (siblings included), and the bare directories left. */
  datatype Copy = Copy(ok: bool, brought: set<string>, bare: set<string>)

  /** The names the store has a package for, if there is a store; the effect of
      copying; and the dependency lists, a name without a readable one having no
      dependencies. */
  datatype World = World(hits: Option<set<string>>, copy: (string, Tree) -> Copy, manifests: map<string, seq<string>>)

  function Deps(w: World, name: string): seq<string> {
    if name in w.manifests then w.manifests[name] else []
  }

  /** Try to bring one package in: success as reported, and the tree then. */
  function Materialized(w: World, tree: Tree, name: string): (bool, Tree) {
    if name in tree.present then (true, tree)
    else if w.hits.None? || name !in w.hits.value then (false, tree)
    else if name in tree.bare then (true, tree)
    else
      var copy := w.copy(name, tree);
      (copy.ok, Tree(tree.present + copy.brought, copy.bare))
  }

  /** The name has a manifest now, or bringing it in succeeds and gives it one. */
  predicate Obtains(w: World, tree: Tree, name: string) {
    name in tree.present || (Materialized(w, tree, name).0 && name in Materialized(w, tree, name).1.present)
  }

  datatype Walk = Walk(
    tree: Tree,
    queue: seq<string>,
    seen: set<string>,
    resolved: seq<string>,
    missing: seq<string>)

  function Unseen(names: seq<string>, seen: set<string>): seq<string> {
    if names == [] then []
    else (if names[0] in seen then [] else [names[0]]) + Unseen(names[1..], seen)
  }

  /** One iteration of the loop. */
  function Visit(w: World, c: Walk): Walk
    requires c.queue != []
  {
    var name, rest := c.queue[0], c.queue[1..];
    if name in c.seen then c.(queue := rest)
    else
      var seen := c.seen + {name};
      var tree := Materialized(w, c.tree, name).1;
      if Obtains(w, c.tree, name) then
        Walk(tree, rest + Unseen(Deps(w, name), seen), seen, c.resolved + [name], c.missing)
      else
        Walk(tree, rest, seen, c.resolved, c.missing + [name])
  }

  /** Every name the walk can ever meet. */
  ghost function Universe(w: World, seeds: seq<string>): set<string> {
    (set s | s in seeds) + set n, d | n in w.manifests && d in w.manifests[n] :: d
  }

  ghost predicate Within(w: World, c: Walk, u: set<string>) {
    && (forall n | n in c.queue :: n in u)
    && c.seen <= u
    && (forall n, d | n in w.manifests && d in w.manifests[n] :: d in u)
  }

  lemma {:induction false} UnseenElements(names: seq<string>, seen: set<string>)
    ensures forall n :: n in Unseen(names, seen) <==> n in names && n !in seen
  {
    if names != [] {
      UnseenElements(names[1..], seen);
    }
  }

  /** The walk measure: names not yet seen first, then the queue. */
  lemma VisitShrinks(w: World, c: Walk, u: set<string>)
    requires c.queue != [] && Within(w, c, u)
    ensures Within(w, Visit(w, c), u)
    ensures |u - Visit(w, c).seen| < |u - c.seen| ||
            (Visit(w, c).seen == c.seen && |Visit(w, c).queue| < |c.queue|)
  {
    var name := c.queue[0];
    if name !in c.seen {
      UnseenElements(Deps(w, name), c.seen + {name});
      assert u - c.seen == (u - (c.seen + {name})) + {name};
    }
  }

  /** The whole loop. */
  ghost function Close(w: World, c: Walk, u: set<string>): Walk
    requires Within(w, c, u)
    decreases |u - c.seen|, |c.queue|
  {
    if c.queue == [] then c
    else
      VisitShrinks(w, c, u);
      Close(w, Visit(w, c), u)
  }

  ghost function Start(tree: Tree, seeds: seq<string>): Walk {
    Walk(tree, seeds, {}, [], [])
  }

  datatype Report = Report(resolved: seq<string>, missing: seq<string>, ok: bool, criticalOk: bool)

  predicate Critical(present: set<string>) {
    "body-parser" in present && "es-errors" in present && "@socket.io/component-emitter" in present
  }

  class NodeModules {
    const world: World
    var present: set<string>
    var bare: set<string>

    constructor (world: World, tree: Tree)
      ensures this.world == world && Contents() == tree
    {
      this.world, present, bare := world, tree.present, tree.bare;
    }

    function Contents(): Tree
      reads this
    {
      Tree(present, bare)
    }

    method MaterializePnpmPackage(name: string) returns (ok: bool)
      modifies this
      ensures (ok, Contents()) == Materialized(world, old(Contents()), name)
    {
      if name in present {
        return true;
      }
      if world.hits.None? || name !in world.hits.value {
        return false;
      }
      if name in bare {
        return true;
      }
      var copy := world.copy(name, Contents());
      present, bare := present + copy.brought, copy.bare;
      return copy.ok;
    }

    /** Queue the dependencies that were not met yet. */
    static method Enqueue(deps: seq<string>, seen: set<string>, queue: seq<string>) returns (extended: seq<string>)
      ensures extended == queue + Unseen(deps, seen)
    {
      extended := queue;
      for i := 0 to |deps|
        invariant extended + Unseen(deps[i..], seen) == queue + Unseen(deps, seen)
      {
        assert deps[i..][1..] == deps[i + 1..];
        if deps[i] !in seen {
          extended := extended + [deps[i]];
        }
      }
    }

    method EnsureNodeRuntimeClosure(seeds: seq<string>) returns (report: Report)
      modifies this
      ensures var u := Universe(world, seeds);
              Within(world, Start(old(Contents()), seeds), u) &&
              var end := Close(world, Start(old(Contents()), seeds), u);
              && end.queue == [] && Contents() == end.tree
              && report.resolved == end.resolved && report.missing == end.missing
              && (report.criticalOk <==> {"body-parser", "es-errors", "@socket.io/component-emitter"} <= present)
              && report.ok == (report.criticalOk && report.missing == [])
    {
      var missing, resolved := [], [];
      var queue := seeds;
      var seen := {};
      ghost var u := Universe(world, seeds);
      ghost var start := Start(Contents(), seeds);
      assert Within(world, start, u);
      while queue != []
        invariant Within(world, Walk(Contents(), queue, seen, resolved, missing), u)
        invariant Close(world, Walk(Contents(), queue, seen, resolved, missing), u) == Close(world, start, u)
        decreases |u - seen|, |queue|
      {
        ghost var c := Walk(Contents(), queue, seen, resolved, missing);
        VisitShrinks(world, c, u);
        var name := queue[0];
        queue := queue[1..];
        if name in seen {
          assert Walk(Contents(), queue, seen, resolved, missing) == Visit(world, c);
          continue;
        }
        seen := seen + {name};
        var was := name in present;
        var ok := was;
        if !was {
          ok := MaterializePnpmPackage(name);
        }
        if !ok || name !in present {
          missing := missing + [name];
          assert Walk(Contents(), queue, seen, resolved, missing) == Visit(world, c);
          continue;
        }
        resolved := resolved + [name];
        queue := Enqueue(Deps(world, name), seen, queue);
        assert Walk(Contents(), queue, seen, resolved, missing) == Visit(world, c);
      }
      var criticalOk := Critical(present);
      report := Report(resolved, missing, criticalOk && missing == [], criticalOk);
    }
  }
}
