/** What a register and a valid document prove about the boot. */
module AttestationTheorems {
  import opened Options
  import opened Attestation
  import opened AttestationObjects

  // ---- the chain binds every stage ------------------------------------------

  /** Every digest is 64 characters, as SHA-256 in hexadecimal is. */
  ghost predicate FullLength(hash: string -> string) {
    forall s :: |hash(s)| == 64
  }

  lemma ExtendedLength(hash: string -> string, digests: seq<string>)
    requires FullLength(hash)
    ensures |Extended(hash, digests)| == 64
  {
  }

  /** The inputs the hash is applied to along a chain. */
  function Inputs(hash: string -> string, digests: seq<string>): set<string>
    decreases |digests|
  {
    if digests == [] then {}
    else
      var front := digests[..|digests| - 1];
      Inputs(hash, front) + {Extended(hash, front) + ":" + digests[|digests| - 1]}
  }

  lemma SplitInput(a: string, b: string, c: string, d: string)
    requires |a| == |b| && a + ":" + c == b + ":" + d
    ensures a == b && c == d
  {
    var x, y := a + ":" + c, b + ":" + d;
    assert x[..|a|] == a && y[..|b|] == b;
    assert x[|a| + 1..] == c && y[|b| + 1..] == d;
  }

  /** Two chains of equal length end in the same register value although their
      digests differ only if the hash collides on two of their inputs, which this
      exhibits. */
  lemma {:induction false} FindCollision(hash: string -> string, d1: seq<string>, d2: seq<string>)
    returns (x: string, y: string)
    requires FullLength(hash)
    requires |d1| == |d2| && d1 != d2 && Extended(hash, d1) == Extended(hash, d2)
    ensures x != y && hash(x) == hash(y) && x in Inputs(hash, d1) && y in Inputs(hash, d2)
    decreases |d1|
  {
    var n := |d1| - 1;
    var f1, f2 := d1[..n], d2[..n];
    x, y := Extended(hash, f1) + ":" + d1[n], Extended(hash, f2) + ":" + d2[n];
    if x == y {
      ExtendedLength(hash, f1);
      ExtendedLength(hash, f2);
      SplitInput(Extended(hash, f1), Extended(hash, f2), d1[n], d2[n]);
      assert d1 == f1 + [d1[n]] && d2 == f2 + [d2[n]];
      x, y := FindCollision(hash, f1, f2);
    }
  }

  /** No two inputs of the two chains collide. */
  ghost predicate CollisionFree(hash: string -> string, d1: seq<string>, d2: seq<string>) {
    forall x, y | x in Inputs(hash, d1) && y in Inputs(hash, d2) && hash(x) == hash(y) :: x == y
  }

  function Register(i: nat): string
    requires 1 <= i <= 5
  {
    Registers[i - 1]
  }

  lemma BankHolds(hash: string -> string, m: seq<Measurement>, i: nat)
    requires 1 <= i <= 5
    ensures Register(i) in Bank(hash, m) && Bank(hash, m)[Register(i)] == Extended(hash, Digests(m)[..i])
  {
  }

  /** Measured-boot chain: two banks agree at a register exactly when the effective
      digests of all stages up to it agree. */
  lemma RegisterAgreesIff(hash: string -> string, m1: seq<Measurement>, m2: seq<Measurement>, i: nat)
    requires FullLength(hash)
    requires 1 <= i <= 5 && CollisionFree(hash, Digests(m1)[..i], Digests(m2)[..i])
    ensures Register(i) in Bank(hash, m1) && Register(i) in Bank(hash, m2)
    ensures Bank(hash, m1)[Register(i)] == Bank(hash, m2)[Register(i)] <==>
            forall k | 0 <= k < i :: Effective(m1, Order[k]) == Effective(m2, Order[k])
  {
    hide Extended, Effective, Inputs, Bank;
    var d1, d2 := Digests(m1)[..i], Digests(m2)[..i];
    BankHolds(hash, m1, i);
    BankHolds(hash, m2, i);
    if Extended(hash, d1) == Extended(hash, d2) && d1 != d2 {
      var x, y := FindCollision(hash, d1, d2);
    }
    assert d1 == d2 ==> forall k | 0 <= k < i :: d1[k] == d2[k];
    assert forall k | 0 <= k < i :: d1[k] == Effective(m1, Order[k]) && d2[k] == Effective(m2, Order[k]);
  }

  // ---- build and verify -----------------------------------------------------

  lemma StageNames(stage: Stage, name: string)
    ensures StageOf(StageName(stage)) == Some(stage)
    ensures StageOf(name).Some? ==> StageName(StageOf(name).value) == name
  {
  }

  lemma EntriesRoundTrip(m: seq<Measurement>)
    requires forall i | 0 <= i < |m| :: |m[i].digest| == 64
    ensures KnownStages(ToEntries(m)) && AllMeasured(ToEntries(m)) == m
  {
    forall i | 0 <= i < |m| ensures GoodEntry(ToEntries(m)[i]) && StageOf(StageName(m[i].stage)) == Some(m[i].stage) {
      StageNames(m[i].stage, "");
    }
  }

  /** Round trip: what the builder produces is valid exactly when there is a
      measurement, every digest is a full one, the security version is not below
      the minimum, and no digest contradicts an expected one. */
  lemma BuiltIsAcceptedIff(hash: string -> string, mac: Body -> Ascii, expected: Expected, allowProd: bool,
                           bootId: string, deviceId: string, stageDigests: seq<(string, string)>,
                           securityVersion: int, createdAt: string)
    requires forall i | 0 <= i < |stageDigests| :: StageOf(stageDigests[i].0).Some?
    ensures Accepts(hash, mac, expected, allowProd,
                    Built(hash, mac, bootId, deviceId, stageDigests, securityVersion, createdAt)) <==>
            && stageDigests != []
            && (forall i | 0 <= i < |stageDigests| :: |stageDigests[i].1| == 64)
            && securityVersion >= expected.minSecurityVersion
            && (forall i | 0 <= i < |stageDigests| ::
                  stageDigests[i].0 in expected.digests ==> expected.digests[stageDigests[i].0] == stageDigests[i].1)
  {
    hide Bank, AllMeasured, Measured, StageOf, StageName;
    var m := DevMeasurements(stageDigests);
    var doc := Built(hash, mac, bootId, deviceId, stageDigests, securityVersion, createdAt);
    BuiltEntries(stageDigests);
    if forall i | 0 <= i < |stageDigests| :: |stageDigests[i].1| == 64 {
      assert forall i | 0 <= i < |m| :: m[i].digest == stageDigests[i].1;
      EntriesRoundTrip(m);
    } else {
      var i :| 0 <= i < |stageDigests| && |stageDigests[i].1| != 64;
      assert !GoodEntry(ToEntries(m)[i]);
    }
  }

  /** The entries of a built document are its stage digests. */
  lemma BuiltEntries(stageDigests: seq<(string, string)>)
    requires forall i | 0 <= i < |stageDigests| :: StageOf(stageDigests[i].0).Some?
    ensures var entries := ToEntries(DevMeasurements(stageDigests));
            && |entries| == |stageDigests|
            && forall i | 0 <= i < |stageDigests| ::
                 && entries[i].Object? && entries[i].stage == Text(stageDigests[i].0)
                 && entries[i].digest == Text(stageDigests[i].1)
  {
    forall i | 0 <= i < |stageDigests| ensures StageName(StageOf(stageDigests[i].0).value) == stageDigests[i].0 {
      StageNames(Launcher, stageDigests[i].0);
    }
  }

  /** The last register of two accepted documents stands for everything booted:
      if they agree there, they agree on the effective digest of every stage, or
      the hash collides. */
  lemma LastRegisterStandsForBoot(hash: string -> string, mac: Body -> Ascii, e1: Expected, e2: Expected,
                                  p1: bool, p2: bool, doc1: Doc, doc2: Doc, stage: Stage)
    requires FullLength(hash)
    requires Accepts(hash, mac, e1, p1, doc1) && Accepts(hash, mac, e2, p2, doc2)
    requires var m1 := AllMeasured(doc1.measurements.value.entries);
             var m2 := AllMeasured(doc2.measurements.value.entries);
             CollisionFree(hash, Digests(m1)[..5], Digests(m2)[..5]) &&
             "pcr5" in doc1.pcrBank.value && "pcr5" in doc2.pcrBank.value &&
             doc1.pcrBank.value["pcr5"] == doc2.pcrBank.value["pcr5"]
    ensures Effective(AllMeasured(doc1.measurements.value.entries), stage)
         == Effective(AllMeasured(doc2.measurements.value.entries), stage)
  {
    var m1 := AllMeasured(doc1.measurements.value.entries);
    var m2 := AllMeasured(doc2.measurements.value.entries);
    RegisterAgreesIff(hash, m1, m2, 5);
    var k := match stage case Bootloader => 0 case Kernel => 1 case Initrd => 2 case RootfsManifest => 3 case Launcher => 4;
    assert Order[k] == stage;
  }
}
