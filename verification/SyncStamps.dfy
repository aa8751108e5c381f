/** The (wall time, replica identifier) stamp is a strict total order. */
module SyncStamps {
  import opened StringOrder
  import opened OfflineSync

  lemma NewerTrichotomy(a: Record, b: Record)
    ensures Newer(a, b) || SameStamp(a, b) || Newer(b, a)
    ensures !(Newer(a, b) && Newer(b, a))
    ensures SameStamp(a, b) ==> !Newer(a, b)
  {
    Trichotomy(a.replicaId, b.replicaId);
  }

  lemma NewerTransitive(a: Record, b: Record, c: Record)
    ensures Newer(a, b) && Newer(b, c) ==> Newer(a, c)
    ensures Newer(a, b) && !Newer(c, b) ==> Newer(a, c)
    ensures !Newer(a, b) && Newer(c, b) ==> Newer(c, a)
    ensures !Newer(a, b) && !Newer(b, c) ==> !Newer(a, c)
  {
    forall x, y | x in {a, b, c} && y in {a, b, c}
      ensures Newer(x, y) || SameStamp(x, y) || Newer(y, x)
      ensures !(Newer(x, y) && Newer(y, x))
      ensures SameStamp(x, y) ==> !Newer(x, y)
    {
      NewerTrichotomy(x, y);
    }
    if Newer(a, b) && Newer(b, c) { NewerChain(a, b, c); }
    if Newer(b, c) && Newer(c, a) { NewerChain(b, c, a); }
    if Newer(c, a) && Newer(a, b) { NewerChain(c, a, b); }
    if Newer(c, b) && Newer(b, a) { NewerChain(c, b, a); }
    if Newer(b, a) && Newer(a, c) { NewerChain(b, a, c); }
    if Newer(a, c) && Newer(c, b) { NewerChain(a, c, b); }
  }

  lemma NewerChain(a: Record, b: Record, c: Record)
    requires Newer(a, b) && Newer(b, c)
    ensures Newer(a, c)
  {
    if a.wallTime == b.wallTime == c.wallTime {
      Transitive(c.replicaId, b.replicaId, a.replicaId);
    }
  }
}
