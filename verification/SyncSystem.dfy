/** Any number of replicas exchanging records over a network that may lose,
    duplicate and reorder them: every record ever held anywhere may be delivered
    to anyone at any time. */
module SyncSystem {
  import opened VectorClocks
  import opened OfflineSync

  /** What made a record: a call of put or delete with its arguments and the time it
      was made at, or a merge. */
  datatype Call = Wrote(value: Value, deleted: bool, time: int) | Joined

  /** Who minted a record, by what call, and the records it was derived from,
      directly or through others. */
  datatype Origin = Origin(maker: string, call: Call, past: set<Record>)

  type Births = map<Record, Origin>

  datatype System = System(replicas: map<string, Replica>, born: Births)

  datatype Action =
    | Put(r: string, key: string, value: Value, now: int)
    | Delete(r: string, key: string, now: int)
    | Deliver(r: string, record: Record)

  /** The call an action makes. */
  function CallOf(a: Action): Call {
    match a
    case Put(_, _, value, now) => Wrote(value, false, now)
    case Delete(_, _, now) => Wrote(Null, true, now)
    case Deliver(_, _) => Joined
  }

  ghost predicate Init(s: System) {
    && s.born == map[]
    && forall r | r in s.replicas :: s.replicas[r] == Replica(r, VectorClockPolicy, map[], [], [])
  }

  ghost predicate Enabled(s: System, a: Action) {
    a.r in s.replicas && (a.Deliver? ==> a.record in s.born)
  }

  ghost function Closure(born: Births, parents: set<Record>): set<Record> {
    parents + set p, x | p in parents && p in born && x in born[p].past :: x
  }

  /** The records a write or merge at this replica builds on. */
  ghost function Local(e: Replica, key: string): set<Record> {
    if key in e.store then {e.store[key]} else {}
  }

  ghost function WriteStep(s: System, r: string, key: string, value: Value, now: int, tombstone: bool): System
    requires r in s.replicas
  {
    var e := s.replicas[r];
    System(s.replicas[r := AfterWrite(e, key, value, now, tombstone)],
           s.born[Written(e, key, value, now, tombstone) := Origin(r, Wrote(value, tombstone, now), Closure(s.born, Local(e, key)))])
  }

  ghost predicate Merges(e: Replica, record: Record) {
    record.key in e.store && Clash(e.store[record.key], record)
  }

  ghost function DeliverStep(s: System, r: string, record: Record): System
    requires r in s.replicas
  {
    var e := s.replicas[r];
    System(s.replicas[r := AfterApply(e, record)],
           if Merges(e, record) then
             s.born[Merged(e.id, e.store[record.key], record) :=
             Origin(r, Joined, Closure(s.born, {e.store[record.key], record}))]
           else s.born)
  }

  /** One step; a disabled action does nothing. */
  ghost function Step(s: System, a: Action): System {
    if !Enabled(s, a) then s
    else match a
         case Put(r, key, value, now) => WriteStep(s, r, key, value, now, false)
         case Delete(r, key, now) => WriteStep(s, r, key, Null, now, true)
         case Deliver(r, record) => DeliverStep(s, r, record)
  }

  ghost function Run(s: System, actions: seq<Action>): System
    decreases |actions|
  {
    if actions == [] then s else Run(Step(s, actions[0]), actions[1..])
  }

  // ---- the invariant -------------------------------------------------------

  ghost predicate Ticked(born: Births) {
    forall x | x in born :: Positive(x.vector) && At(x.vector, born[x].maker) > 0
  }

  /** Whoever has seen the tick that made x has seen all of x. */
  ghost predicate Causal(born: Births) {
    forall x, y | x in born && y in born && x.key == y.key && At(y.vector, born[x].maker) >= At(x.vector, born[x].maker) ::
      Leq(x.vector, y.vector)
  }

  ghost predicate Unique(born: Births) {
    forall x, y | x in born && y in born && x.key == y.key && x.vector == y.vector :: x == y
  }

  /** The clock order is exactly derivation. */
  ghost predicate Historic(born: Births) {
    && (forall y | y in born :: born[y].past <= born.Keys)
    && (forall x, y | x in born && y in born ::
          x in born[y].past <==> x.key == y.key && Before(x.vector, y.vector))
  }

  ghost predicate Versioned(born: Births) {
    forall x, y | x in born && y in born && x.key == y.key && Before(x.vector, y.vector) :: x.version < y.version
  }

  ghost predicate Placed(s: System) {
    forall r | r in s.replicas ::
      && s.replicas[r].id == r
      && s.replicas[r].policy.VectorClockPolicy?
      && forall key | key in s.replicas[r].store ::
           s.replicas[r].store[key] in s.born && s.replicas[r].store[key].key == key
  }

  ghost function Own(e: Replica, key: string): int {
    if key in e.store then At(e.store[key].vector, e.id) else 0
  }

  /** No record anywhere is ahead of a replica in that replica's own component. */
  ghost predicate Bounded(s: System) {
    forall r, x | r in s.replicas && x in s.born :: At(x.vector, r) <= Own(s.replicas[r], x.key)
  }

  ghost predicate Inv(s: System) {
    && Placed(s) && Bounded(s)
    && Ticked(s.born) && Causal(s.born) && Unique(s.born) && Historic(s.born) && Versioned(s.born)
  }

  // ---- minting a record ----------------------------------------------------

  /** n is a new record by r derived from the parents: above each of them, with
      nothing in other components that no parent has, and with a tick of r that
      no record of the key has, while a parent carries all earlier ticks of r. */
  ghost predicate Mint(born: Births, r: string, n: Record, parents: set<Record>) {
    && Positive(n.vector)
    && (forall p | p in parents :: p in born && p.key == n.key && Leq(p.vector, n.vector) && p.version < n.version)
    && (forall q | q != r && At(n.vector, q) > 0 :: exists p :: p in parents && At(n.vector, q) <= At(p.vector, q))
    && (forall x | x in born && x.key == n.key :: At(x.vector, r) < At(n.vector, r))
    && (forall x | x in born && x.key == n.key && At(x.vector, r) > 0 ::
          exists p :: p in parents && At(x.vector, r) <= At(p.vector, r))
  }

  /** Everything below a minted record is below one of its parents. */
  lemma MintBelow(born: Births, r: string, n: Record, parents: set<Record>, x: Record)
    requires Ticked(born) && Causal(born) && Mint(born, r, n, parents)
    requires x in born && x.key == n.key && At(n.vector, born[x].maker) >= At(x.vector, born[x].maker)
    ensures exists p :: p in parents && Leq(x.vector, p.vector)
    ensures Leq(x.vector, n.vector)
  {
    var q := born[x].maker;
    assert At(x.vector, q) > 0;
    var p :| p in parents && At(x.vector, q) <= At(p.vector, q);
    LeqTransitive(x.vector, p.vector, n.vector);
  }

  lemma MintNotBelow(born: Births, r: string, n: Record, parents: set<Record>, x: Record)
    requires Mint(born, r, n, parents) && x in born && x.key == n.key
    ensures !Leq(n.vector, x.vector) && n != x
  {
  }

  lemma MintKeepsCausal(born: Births, r: string, n: Record, parents: set<Record>, o: Origin)
    requires Ticked(born) && Causal(born) && Mint(born, r, n, parents) && o.maker == r
    requires At(n.vector, r) > 0
    ensures Ticked(born[n := o]) && Causal(born[n := o])
  {
    var born' := born[n := o];
    forall x, y | x in born' && y in born' && x.key == y.key && At(y.vector, born'[x].maker) >= At(x.vector, born'[x].maker)
      ensures Leq(x.vector, y.vector)
    {
      if x != n && y == n {
        MintBelow(born, r, n, parents, x);
      }
    }
  }

  lemma MintKeepsUnique(born: Births, r: string, n: Record, parents: set<Record>, o: Origin)
    requires Unique(born) && Mint(born, r, n, parents)
    ensures Unique(born[n := o])
  {
  }

  lemma MintHistory(born: Births, r: string, n: Record, parents: set<Record>, x: Record)
    requires Ticked(born) && Causal(born) && Unique(born) && Historic(born) && Mint(born, r, n, parents)
    requires x in born
    ensures x in Closure(born, parents) <==> x.key == n.key && Before(x.vector, n.vector)
  {
    if x.key == n.key && Before(x.vector, n.vector) {
      assert At(n.vector, born[x].maker) >= At(x.vector, born[x].maker);
      MintBelow(born, r, n, parents, x);
      var p :| p in parents && Leq(x.vector, p.vector);
      if Leq(p.vector, x.vector) {
        PositiveAntisymmetric(x.vector, p.vector);
        assert x == p;
      } else {
        assert x in born[p].past;
      }
    }
    if x in Closure(born, parents) {
      MintNotBelow(born, r, n, parents, x) by {
        if x !in parents {
          var p :| p in parents && p in born && x in born[p].past;
          assert x.key == p.key;
        }
      }
      if x !in parents {
        var p :| p in parents && p in born && x in born[p].past;
        LeqTransitive(x.vector, p.vector, n.vector);
      }
    }
  }

  lemma MintKeepsHistoric(born: Births, r: string, n: Record, parents: set<Record>, o: Origin)
    requires Ticked(born) && Causal(born) && Unique(born) && Historic(born) && Mint(born, r, n, parents)
    requires o.past == Closure(born, parents) && n !in born
    ensures Historic(born[n := o])
  {
    hide Ticked, Causal, Unique, Mint, Closure;
    var born' := born[n := o];
    ClosureIsBorn(born, r, n, parents);
    forall x, y | x in born' && y in born'
      ensures x in born'[y].past <==> x.key == y.key && Before(x.vector, y.vector)
    {
      if x == n && y != n {
        if x.key == y.key { MintNotBelow(born, r, n, parents, y); }
      } else if x != n && y == n {
        MintHistory(born, r, n, parents, x);
      }
    }
  }

  lemma ClosureIsBorn(born: Births, r: string, n: Record, parents: set<Record>)
    requires Historic(born) && Mint(born, r, n, parents)
    ensures Closure(born, parents) <= born.Keys
  {
    assert forall p | p in parents :: p in born && born[p].past <= born.Keys;
  }

  lemma LeqVersion(born: Births, x: Record, p: Record)
    requires Ticked(born) && Unique(born) && Versioned(born)
    requires x in born && p in born && x.key == p.key && Leq(x.vector, p.vector)
    ensures x.version <= p.version
  {
    if Leq(p.vector, x.vector) {
      PositiveAntisymmetric(x.vector, p.vector);
    }
  }

  lemma MintVersion(born: Births, r: string, n: Record, parents: set<Record>, x: Record)
    requires Ticked(born) && Causal(born) && Unique(born) && Versioned(born) && Mint(born, r, n, parents)
    requires x in born && x.key == n.key && Leq(x.vector, n.vector)
    ensures x.version < n.version
  {
    MintBelow(born, r, n, parents, x);
    var p :| p in parents && Leq(x.vector, p.vector);
    LeqVersion(born, x, p);
  }

  lemma MintKeepsVersioned(born: Births, r: string, n: Record, parents: set<Record>, o: Origin)
    requires Ticked(born) && Causal(born) && Unique(born) && Versioned(born) && Mint(born, r, n, parents)
    ensures Versioned(born[n := o])
  {
    var born' := born[n := o];
    forall x, y | x in born' && y in born' && x.key == y.key && Before(x.vector, y.vector)
      ensures x.version < y.version
    {
      if y != n && x == n {
        MintNotBelow(born, r, n, parents, y);
      } else if y == n && x != n {
        MintVersion(born, r, n, parents, x);
      }
    }
  }

  lemma MintKeepsBounded(s: System, r: string, n: Record, parents: set<Record>, e: Replica, o: Origin)
    requires Placed(s) && Bounded(s) && Ticked(s.born)
    requires r in s.replicas && Mint(s.born, r, n, parents)
    requires e.id == r && e.store == s.replicas[r].store[n.key := n]
    ensures Bounded(System(s.replicas[r := e], s.born[n := o]))
  {
  }

  /** Storing a freshly minted record at its maker keeps the whole invariant. */
  lemma MintKeepsInv(s: System, r: string, n: Record, parents: set<Record>, e: Replica, o: Origin)
    requires Inv(s) && r in s.replicas && Mint(s.born, r, n, parents) && At(n.vector, r) > 0
    requires e.id == r && e.policy.VectorClockPolicy? && e.store == s.replicas[r].store[n.key := n]
    requires o.maker == r && o.past == Closure(s.born, parents)
    ensures n !in s.born
    ensures Inv(System(s.replicas[r := e], s.born[n := o]))
  {
    hide Bounded, Ticked, Causal, Unique, Historic, Versioned, Mint;
    if n in s.born {
      MintNotBelow(s.born, r, n, parents, n);
      assert false;
    }
    MintKeepsBounded(s, r, n, parents, e, o);
    MintKeepsCausal(s.born, r, n, parents, o);
    MintKeepsUnique(s.born, r, n, parents, o);
    MintKeepsHistoric(s.born, r, n, parents, o);
    MintKeepsVersioned(s.born, r, n, parents, o);
    assert Placed(System(s.replicas[r := e], s.born[n := o]));
  }

  lemma OwnNonNegative(s: System, q: string, key: string)
    requires Placed(s) && Ticked(s.born) && q in s.replicas
    ensures Own(s.replicas[q], key) >= 0
  {
  }

  lemma HasItsName(s: System, r: string)
    requires Inv(s) && r in s.replicas
    ensures s.replicas[r].id == r && s.replicas[r].policy.VectorClockPolicy?
    ensures forall key | key in s.replicas[r].store ::
              s.replicas[r].store[key] in s.born && s.replicas[r].store[key].key == key
  {
  }

  // ---- every step keeps it -------------------------------------------------

  lemma WriteMints(s: System, r: string, key: string, value: Value, now: int, tombstone: bool)
    requires Inv(s) && r in s.replicas
    ensures var e := s.replicas[r];
            var n := Written(e, key, value, now, tombstone);
            Mint(s.born, r, n, Local(e, key)) && At(n.vector, r) > 0
  {
    var e := s.replicas[r];
    var n := Written(e, key, value, now, tombstone);
    OwnNonNegative(s, r, key);
    forall x | x in s.born && x.key == key ensures At(x.vector, r) <= Own(e, key) {
    }
    if key in e.store {
      assert e.store[key] in Local(e, key);
      forall q | q != r ensures At(n.vector, q) == At(e.store[key].vector, q) {
      }
    }
  }

  lemma MergedAt(r: string, local: Record, record: Record, q: string)
    ensures At(Merged(r, local, record).vector, q)
         == Max(At(local.vector, q), At(record.vector, q)) + if q == r then 1 else 0
  {
  }

  lemma MergedPositive(r: string, local: Record, record: Record)
    requires Positive(local.vector) && Positive(record.vector)
    ensures Positive(Merged(r, local, record).vector) && At(Merged(r, local, record).vector, r) > 0
  {
  }

  lemma MergedIsMint(born: Births, r: string, local: Record, record: Record)
    requires local in born && record in born && local.key == record.key
    requires Positive(local.vector) && Positive(record.vector)
    requires forall x | x in born && x.key == record.key :: At(x.vector, r) <= At(local.vector, r)
    ensures Mint(born, r, Merged(r, local, record), {local, record})
    ensures At(Merged(r, local, record).vector, r) > 0
  {
    var n := Merged(r, local, record);
    var parents := {local, record};
    MergedPositive(r, local, record);
    forall q
      ensures At(n.vector, q) == Max(At(local.vector, q), At(record.vector, q)) + if q == r then 1 else 0
    {
      MergedAt(r, local, record, q);
    }
    assert Leq(local.vector, n.vector) && Leq(record.vector, n.vector);
    assert local in parents && record in parents;
    assert forall q | q != r && At(n.vector, q) > 0 :: exists p :: p in parents && At(n.vector, q) <= At(p.vector, q);
  }

  lemma MergeMints(s: System, r: string, record: Record)
    requires Inv(s) && r in s.replicas && record in s.born && Merges(s.replicas[r], record)
    ensures var local := s.replicas[r].store[record.key];
            var n := Merged(r, local, record);
            Mint(s.born, r, n, {local, record}) && At(n.vector, r) > 0
  {
    var local := s.replicas[r].store[record.key];
    forall x | x in s.born && x.key == record.key ensures At(x.vector, r) <= At(local.vector, r) {
      assert At(x.vector, r) <= Own(s.replicas[r], x.key);
    }
    MergedIsMint(s.born, r, local, record);
  }

  lemma AdoptKeepsInv(s: System, r: string, record: Record)
    requires Inv(s) && r in s.replicas && record in s.born && !Merges(s.replicas[r], record)
    ensures Inv(DeliverStep(s, r, record))
  {
    hide Placed, Bounded, Ticked, Causal, Unique, Historic, Versioned, AfterApply;
    AdoptKeepsPlaced(s, r, record);
    AdoptKeepsBounded(s, r, record);
  }

  lemma AdoptKeepsPlaced(s: System, r: string, record: Record)
    requires Placed(s) && r in s.replicas && record in s.born && !Merges(s.replicas[r], record)
    ensures Placed(DeliverStep(s, r, record))
  {
    hide Clash, Before, Merged, Winner;
  }

  lemma AdoptKeepsBounded(s: System, r: string, record: Record)
    requires Placed(s) && Bounded(s) && Ticked(s.born)
    requires r in s.replicas && record in s.born && !Merges(s.replicas[r], record)
    ensures Bounded(DeliverStep(s, r, record))
  {
    hide Clash, Merged, Winner;
    var s' := DeliverStep(s, r, record);
    var e := s.replicas[r];
    OwnNonNegative(s, r, record.key);
    forall q, x | q in s'.replicas && x in s'.born ensures At(x.vector, q) <= Own(s'.replicas[q], x.key) {
      assert At(x.vector, q) <= Own(s.replicas[q], x.key);
      if q == r && x.key == record.key && x.key in e.store && Before(e.store[x.key].vector, record.vector) {
        assert At(e.store[x.key].vector, r) <= At(record.vector, r);
      }
    }
  }

  lemma WriteKeepsInv(s: System, r: string, key: string, value: Value, now: int, tombstone: bool)
    requires Inv(s) && r in s.replicas
    ensures Inv(WriteStep(s, r, key, value, now, tombstone))
    ensures Written(s.replicas[r], key, value, now, tombstone) !in s.born
  {
    var e := s.replicas[r];
    WriteMints(s, r, key, value, now, tombstone);
    MintKeepsInv(s, r, Written(e, key, value, now, tombstone), Local(e, key),
                 AfterWrite(e, key, value, now, tombstone), Origin(r, Wrote(value, tombstone, now), Closure(s.born, Local(e, key))));
  }

  lemma MergeKeepsInv(s: System, r: string, record: Record)
    requires Inv(s) && r in s.replicas && record in s.born && Merges(s.replicas[r], record)
    ensures Inv(DeliverStep(s, r, record))
    ensures Merged(r, s.replicas[r].store[record.key], record) !in s.born
  {
    var e := s.replicas[r];
    var local := e.store[record.key];
    MergeMints(s, r, record);
    MintKeepsInv(s, r, Merged(r, local, record), {local, record},
                 AfterApply(e, record), Origin(r, Joined, Closure(s.born, {local, record})));
  }

  lemma StepKeepsInv(s: System, a: Action)
    requires Inv(s)
    ensures Inv(Step(s, a))
  {
    hide Inv;
    if Enabled(s, a) {
      match a
      case Put(r, key, value, now) => WriteKeepsInv(s, r, key, value, now, false);
      case Delete(r, key, now) => WriteKeepsInv(s, r, key, Null, now, true);
      case Deliver(r, record) =>
        if Merges(s.replicas[r], record) {
          MergeKeepsInv(s, r, record);
        } else {
          AdoptKeepsInv(s, r, record);
        }
    }
  }

  lemma {:induction false} RunKeepsInv(s: System, actions: seq<Action>)
    requires Inv(s)
    ensures Inv(Run(s, actions))
    decreases |actions|
  {
    if actions != [] {
      StepKeepsInv(s, actions[0]);
      RunKeepsInv(Step(s, actions[0]), actions[1..]);
    }
  }

  lemma InitInv(s: System)
    requires Init(s)
    ensures Inv(s)
  {
  }
}
