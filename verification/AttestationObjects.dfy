/** The evidence object and the verifier, proved against what they promise. */
module AttestationObjects {
  import opened Options
  import opened Attestation

  lemma BankIsComplete(hash: string -> string, measurements: seq<Measurement>)
    ensures |Digests(measurements)| == 5
    ensures BankUpTo(hash, Digests(measurements), 5) == Bank(hash, measurements)
  {
    hide Extended, Effective;
    var d := Digests(measurements);
    assert BankUpTo(hash, d, 1) == map["pcr1" := Extended(hash, d[..1])];
    assert BankUpTo(hash, d, 2) == BankUpTo(hash, d, 1)["pcr2" := Extended(hash, d[..2])];
    assert BankUpTo(hash, d, 3) == BankUpTo(hash, d, 2)["pcr3" := Extended(hash, d[..3])];
    assert BankUpTo(hash, d, 4) == BankUpTo(hash, d, 3)["pcr4" := Extended(hash, d[..4])];
  }

  lemma ExtendedNone(hash: string -> string, digests: seq<string>)
    ensures Extended(hash, digests[..0]) == Zeros
  {
  }

  lemma NextRegister(hash: string -> string, measurements: seq<Measurement>, i: nat, digest: string)
    requires i < |Order| && digest == Effective(measurements, Order[i])
    ensures |Digests(measurements)| == 5
    ensures Extended(hash, Digests(measurements)[..i + 1])
         == hash(Extended(hash, Digests(measurements)[..i]) + ":" + digest)
  {
    var d := Digests(measurements);
    assert d[..i + 1][..i] == d[..i] && d[..i + 1][i] == d[i] == digest;
  }

  class MeasurableBootEvidence {
    const hash: string -> string
    const mac: Body -> Ascii
    const bootId: string
    const deviceId: string
    const measurements: seq<Measurement>
    const securityVersion: int
    const realm: string
    const createdAt: string
    var pcrBank: map<string, string>
    var signature: string

    constructor (hash: string -> string, mac: Body -> Ascii, bootId: string, deviceId: string,
                 measurements: seq<Measurement>, securityVersion: int, realm: string, createdAt: string)
      ensures this.hash == hash && this.mac == mac && this.bootId == bootId && this.deviceId == deviceId
      ensures this.measurements == measurements && this.securityVersion == securityVersion
      ensures this.realm == realm && this.createdAt == createdAt && pcrBank == map[] && signature == ""
    {
      this.hash, this.mac, this.bootId, this.deviceId := hash, mac, bootId, deviceId;
      this.measurements, this.securityVersion, this.realm, this.createdAt := measurements, securityVersion, realm, createdAt;
      pcrBank, signature := map[], "";
    }

    /** The last measurement of each stage. */
    method ByStage() returns (byStage: map<Stage, Measurement>)
      ensures forall stage :: Effective(measurements, stage) == if stage in byStage then byStage[stage].digest else Effs
    {
      byStage := map[];
      for i := 0 to |measurements|
        invariant forall stage ::
            Effective(measurements[..i], stage) == if stage in byStage then byStage[stage].digest else Effs
      {
        assert measurements[..i + 1][..i] == measurements[..i];
        byStage := byStage[measurements[i].stage := measurements[i]];
      }
      assert measurements[..|measurements|] == measurements;
    }

    method ComputePcrBank() returns (bank: map<string, string>)
      ensures bank == Bank(hash, measurements)
    {
      hide Effective, Extended, Bank, Digests;
      var byStage := ByStage();
      bank := map[];
      var acc := Zeros;
      ghost var d := Digests(measurements);
      ExtendedNone(hash, d);
      BankIsComplete(hash, measurements);
      for i := 0 to |Order|
        invariant acc == Extended(hash, d[..i])
        invariant bank == BankUpTo(hash, d, i)
      {
        var digest := if Order[i] in byStage then byStage[Order[i]].digest else Effs;
        NextRegister(hash, measurements, i, digest);
        acc := hash(acc + ":" + digest);
        bank := bank[Registers[i] := acc];
      }
    }

    function UnsignedBody(): Body
      reads this
    {
      Body("1.0.0", realm, bootId, deviceId, ToEntries(measurements), pcrBank, securityVersion, createdAt)
    }

    /** Signing fills in the bank only if there is none yet, and signs only in the DEV realm. */
    method SignDev() returns (signed: bool)
      modifies this
      ensures signed <==> realm == "dev"
      ensures !signed ==> pcrBank == old(pcrBank) && signature == old(signature)
      ensures signed ==> signature == mac(UnsignedBody())
      ensures signed ==> pcrBank == if old(pcrBank) == map[] then Bank(hash, measurements) else old(pcrBank)
    {
      if realm != "dev" {
        return false;
      }
      if pcrBank == map[] {
        pcrBank := ComputePcrBank();
      }
      signature := mac(UnsignedBody());
      return true;
    }
  }

  function ToEntry(m: Measurement): Entry {
    Object(Text(StageName(m.stage)), Text(m.digest), Some(m.description))
  }

  function ToEntries(measurements: seq<Measurement>): seq<Entry> {
    seq(|measurements|, i requires 0 <= i < |measurements| => ToEntry(measurements[i]))
  }

  function ToDoc(b: Body, signature: string): Doc {
    Doc(Some(b.schemaVersion), Some(b.realm), Some(b.bootId), Some(b.deviceId), Some(List(b.entries)),
        Some(b.pcrBank), Some(b.securityVersion), Some(b.createdAt), Text(signature))
  }

  /** `build_dev_evidence`: no document if a stage name is unknown. */
  method BuildDevEvidence(hash: string -> string, mac: Body -> Ascii, bootId: string, deviceId: string,
                          stageDigests: seq<(string, string)>, securityVersion: int, createdAt: string)
    returns (doc: Option<Doc>)
    ensures doc.Some? <==> forall i | 0 <= i < |stageDigests| :: StageOf(stageDigests[i].0).Some?
    ensures doc.Some? ==> doc.value == Built(hash, mac, bootId, deviceId, stageDigests, securityVersion, createdAt)
    ensures doc.Some? ==>
              && doc.value.bootId == Some(bootId) && doc.value.deviceId == Some(deviceId)
              && doc.value.schemaVersion == Some("1.0.0") && doc.value.realm == Some("dev")
              && doc.value.securityVersion == Some(securityVersion) && doc.value.createdAt == Some(createdAt)
  {
    var measurements := [];
    for i := 0 to |stageDigests|
      invariant forall k | 0 <= k < i :: StageOf(stageDigests[k].0).Some?
      invariant measurements == DevMeasurements(stageDigests[..i])
    {
      var stage := StageOf(stageDigests[i].0);
      if stage.None? {
        return None;
      }
      measurements := measurements + [Measurement(stage.value, stageDigests[i].1,
                                                  "dev measurement for " + stageDigests[i].0)];
    }
    assert stageDigests[..|stageDigests|] == stageDigests;
    var evidence := new MeasurableBootEvidence(hash, mac, bootId, deviceId, measurements, securityVersion, "dev", createdAt);
    var _ := evidence.SignDev();
    return Some(ToDoc(evidence.UnsignedBody(), evidence.signature));
  }

  function DevMeasurements(stageDigests: seq<(string, string)>): seq<Measurement>
    requires forall i | 0 <= i < |stageDigests| :: StageOf(stageDigests[i].0).Some?
  {
    seq(|stageDigests|, i requires 0 <= i < |stageDigests| =>
      Measurement(StageOf(stageDigests[i].0).value, stageDigests[i].1, "dev measurement for " + stageDigests[i].0))
  }

  function Built(hash: string -> string, mac: Body -> Ascii, bootId: string, deviceId: string,
                 stageDigests: seq<(string, string)>, securityVersion: int, createdAt: string): Doc
    requires forall i | 0 <= i < |stageDigests| :: StageOf(stageDigests[i].0).Some?
  {
    var measurements := DevMeasurements(stageDigests);
    var body := Body("1.0.0", "dev", bootId, deviceId, ToEntries(measurements), Bank(hash, measurements),
                     securityVersion, createdAt);
    ToDoc(body, mac(body))
  }

  lemma CompleteIff(doc: Doc)
    ensures Complete(doc) <==> forall k | 0 <= k < |Required| :: Has(doc, Required[k])
  {
    if forall k | 0 <= k < |Required| :: Has(doc, Required[k]) {
      assert Has(doc, Required[0]) && Has(doc, Required[1]) && Has(doc, Required[2]);
      assert Has(doc, Required[3]) && Has(doc, Required[4]) && Has(doc, Required[5]);
      assert Has(doc, Required[6]) && Has(doc, Required[7]) && Has(doc, Required[8]);
    }
  }

  /** Some entry of this stage contradicts its expected digest. */
  predicate Mismatched(expected: Expected, entries: seq<Entry>, stage: string)
    requires forall i | 0 <= i < |entries| :: GoodEntry(entries[i])
  {
    exists i | 0 <= i < |entries| :: Mismatch(expected, entries[i]) && entries[i].stage == Text(stage)
  }

  lemma MismatchedNext(expected: Expected, entries: seq<Entry>, i: nat)
    requires i < |entries| && forall k | 0 <= k < |entries| :: GoodEntry(entries[k])
    ensures forall stage :: Mismatched(expected, entries[..i + 1], stage) <==>
                            Mismatched(expected, entries[..i], stage) ||
                            (Mismatch(expected, entries[i]) && entries[i].stage == Text(stage))
  {
    var more := entries[..i + 1];
    assert more == entries[..i] + [entries[i]];
    forall stage ensures Mismatched(expected, more, stage) <==>
                         Mismatched(expected, entries[..i], stage) ||
                         (Mismatch(expected, entries[i]) && entries[i].stage == Text(stage))
    {
      if Mismatched(expected, entries[..i], stage) {
        var k :| 0 <= k < i && Mismatch(expected, entries[..i][k]) && entries[..i][k].stage == Text(stage);
        assert more[k] == entries[k];
      }
      if Mismatch(expected, entries[i]) && entries[i].stage == Text(stage) {
        assert more[i] == entries[i];
      }
    }
  }

  class AttestationVerifier {
    const hash: string -> string
    const mac: Body -> Ascii
    const expected: Expected
    const allowProd: bool

    constructor (hash: string -> string, mac: Body -> Ascii, expected: Expected, allowProd: bool)
      ensures this.hash == hash && this.mac == mac && this.expected == expected && this.allowProd == allowProd
    {
      this.hash, this.mac, this.expected, this.allowProd := hash, mac, expected, allowProd;
    }

    /** One error for each required field that is absent. */
    static method MissingFields(doc: Doc) returns (errors: seq<Error>)
      ensures errors == [] <==> Complete(doc)
      ensures forall e :: e in errors <==> e.MissingField? && e.name in Required && !Has(doc, e.name)
    {
      errors := [];
      for i := 0 to |Required|
        invariant errors == [] <==> forall k | 0 <= k < i :: Has(doc, Required[k])
        invariant forall e :: e in errors <==> e.MissingField? && e.name in Required[..i] && !Has(doc, e.name)
      {
        assert Required[..i + 1] == Required[..i] + [Required[i]];
        if !Has(doc, Required[i]) {
          errors := errors + [MissingField(Required[i])];
        }
      }
      assert Required[..|Required|] == Required;
      CompleteIff(doc);
    }

    /** What is wrong with a well-formed document of an admitted realm. */
    predicate Deserves(doc: Doc, e: Error)
      requires WellFormed(doc) && KnownStages(doc.measurements.value.entries)
    {
      match e
      case BadSignature => doc.signature != Text(mac(BodyOf(doc)))
      case SecurityVersionTooLow => doc.securityVersion.value < expected.minSecurityVersion
      case MeasurementMismatch(stage) => Mismatched(expected, doc.measurements.value.entries, stage)
      case PcrBankMismatch => doc.pcrBank.value != Bank(hash, AllMeasured(doc.measurements.value.entries))
      case _ => false
    }

    /** A document that deserves no error is an accepted one. */
    lemma AcceptsIff(doc: Doc)
      requires WellFormed(doc) && KnownStages(doc.measurements.value.entries) && (doc.realm == Some("prod") ==> allowProd)
      ensures Accepts(hash, mac, expected, allowProd, doc) <==> forall e :: !Deserves(doc, e)
      ensures !Deserves(doc, ProdRealmRejected)
    {
      hide Bank, AllMeasured, KnownStages;
      if forall e :: !Deserves(doc, e) {
        assert !Deserves(doc, BadSignature) && !Deserves(doc, SecurityVersionTooLow) && !Deserves(doc, PcrBankMismatch);
        forall i | 0 <= i < |doc.measurements.value.entries| ensures !Mismatch(expected, doc.measurements.value.entries[i]) {
          var stage := doc.measurements.value.entries[i].stage;
          assert stage.Text? ==> !Deserves(doc, MeasurementMismatch(stage.s));
        }
      }
    }

    static method EntryErrors(entries: seq<Entry>) returns (errors: seq<Error>)
      ensures errors == [] <==> forall i | 0 <= i < |entries| :: GoodEntry(entries[i])
      ensures forall e | e in errors :: e.EntryNotObject? || e.EntryIncomplete? || e.EntryBadDigest?
      ensures forall i | 0 <= i < |entries| ::
                && (EntryNotObject(i) in errors <==> entries[i].NotObject?)
                && (EntryIncomplete(i) in errors <==> entries[i].Object? && (entries[i].stage.Absent? || entries[i].digest.Absent?))
                && (EntryBadDigest(i) in errors <==>
                    entries[i].Object? && !(entries[i].digest.Text? && |entries[i].digest.s| == 64))
    {
      errors := [];
      for i := 0 to |entries|
        invariant errors == [] <==> forall k | 0 <= k < i :: GoodEntry(entries[k])
        invariant forall e | e in errors :: e.EntryNotObject? || e.EntryIncomplete? || e.EntryBadDigest?
        invariant forall k | 0 <= k < |entries| ::
            && (EntryNotObject(k) in errors <==> k < i && entries[k].NotObject?)
            && (EntryIncomplete(k) in errors <==>
                k < i && entries[k].Object? && (entries[k].stage.Absent? || entries[k].digest.Absent?))
            && (EntryBadDigest(k) in errors <==>
                k < i && entries[k].Object? && !(entries[k].digest.Text? && |entries[k].digest.s| == 64))
      {
        var m := entries[i];
        if m.NotObject? {
          errors := errors + [EntryNotObject(i)];
          continue;
        }
        if m.stage.Absent? || m.digest.Absent? {
          errors := errors + [EntryIncomplete(i)];
        }
        if !m.digest.Text? || |m.digest.s| != 64 {
          errors := errors + [EntryBadDigest(i)];
        }
      }
    }

    static method ValidateSchema(doc: Doc) returns (errors: seq<Error>)
      ensures errors == [] <==> WellFormed(doc)
      ensures UnsupportedSchemaVersion in errors <==> doc.schemaVersion != Some("1.0.0")
      ensures InvalidRealm in errors <==> doc.realm != Some("dev") && doc.realm != Some("prod")
      ensures forall name :: MissingField(name) in errors <==> name in Required && !Has(doc, name)
      ensures forall e | e in errors :: !e.ProdRealmRejected?
    {
      var missing := MissingFields(doc);
      var version := if doc.schemaVersion != Some("1.0.0") then [UnsupportedSchemaVersion] else [];
      var realm := if doc.realm != Some("dev") && doc.realm != Some("prod") then [InvalidRealm] else [];
      var entries;
      if doc.measurements.None? || !doc.measurements.value.List? || doc.measurements.value.entries == [] {
        entries := [MeasurementsEmpty];
      } else {
        entries := EntryErrors(doc.measurements.value.entries);
      }
      errors := missing + version + realm + entries;
    }

    method Verify(doc: Doc) returns (verdict: Verdict)
      // a document is valid exactly when it has every property an accepted document has
      ensures verdict.Verdict? ==> (verdict.valid <==> verdict.errors == [])
      ensures verdict.Verdict? ==> (verdict.valid <==> Accepts(hash, mac, expected, allowProd, doc))
      ensures verdict.Verdict? && verdict.valid ==> doc.realm == Some("dev") || (doc.realm == Some("prod") && allowProd)
      // and each error is reported exactly when it applies
      ensures verdict.Verdict? ==> (ProdRealmRejected in verdict.errors <==>
                                    WellFormed(doc) && doc.realm == Some("prod") && !allowProd)
      ensures verdict.Verdict? && WellFormed(doc) && (doc.realm == Some("prod") ==> allowProd) ==>
                KnownStages(doc.measurements.value.entries) && forall e :: e in verdict.errors <==> Deserves(doc, e)
      // it raises only on a well-formed document whose signature cannot be compared, or with a stage that is none
      ensures verdict.Crashed? <==> WellFormed(doc) && (doc.realm == Some("prod") ==> allowProd)
                                    && (!Comparable(doc) || !KnownStages(doc.measurements.value.entries))
    {
      hide KnownStages, GoodEntry, Mismatched, Bank, AllMeasured, Deserves;
      var errors := ValidateSchema(doc);
      if errors != [] {
        return Verdict(false, errors);
      }
      if doc.realm == Some("prod") && !allowProd {
        return Verdict(false, [ProdRealmRejected]);
      }
      verdict := Judge(doc);
      if verdict.Verdict? {
        AcceptsIff(doc);
        assert verdict.valid ==> forall e :: !Deserves(doc, e);
        assert !verdict.valid ==> verdict.errors[0] in verdict.errors && Deserves(doc, verdict.errors[0]);
      }
    }

    /** The part of verification after schema and realm. */
    method Judge(doc: Doc) returns (verdict: Verdict)
      requires WellFormed(doc)
      ensures verdict.Crashed? <==> !Comparable(doc) || !KnownStages(doc.measurements.value.entries)
      ensures verdict.Verdict? ==>
                && (verdict.valid <==> verdict.errors == [])
                && forall e :: e in verdict.errors <==> Deserves(doc, e)
    {
      hide KnownStages, GoodEntry, Mismatched, Bank, AllMeasured;
      var entries := doc.measurements.value.entries;
      var body := BodyOf(doc);
      var errors := [];
      if !Comparable(doc) {
        return Crashed;
      }
      if mac(body) != doc.signature.s {
        errors := errors + [BadSignature];
      }
      if doc.securityVersion.value < expected.minSecurityVersion {
        errors := errors + [SecurityVersionTooLow];
      }
      var mismatches := Mismatches(entries);
      errors := errors + mismatches;
      var measurements := Parse(entries);
      if measurements.None? {
        return Crashed;
      }
      var recomputed := new MeasurableBootEvidence(hash, mac, doc.bootId.value, doc.deviceId.value, measurements.value,
                                                   doc.securityVersion.value, doc.realm.value, doc.createdAt.value);
      var bank := recomputed.ComputePcrBank();
      if bank != doc.pcrBank.value {
        errors := errors + [PcrBankMismatch];
      }
      return Verdict(errors == [], errors);
    }

    method Mismatches(entries: seq<Entry>) returns (errors: seq<Error>)
      requires forall i | 0 <= i < |entries| :: GoodEntry(entries[i])
      ensures errors == [] <==> forall i | 0 <= i < |entries| :: !Mismatch(expected, entries[i])
      ensures forall e :: e in errors <==> e.MeasurementMismatch? && Mismatched(expected, entries, e.stage)
    {
      errors := [];
      for i := 0 to |entries|
        invariant errors == [] <==> forall k | 0 <= k < i :: !Mismatch(expected, entries[k])
        invariant forall e :: e in errors <==> e.MeasurementMismatch? && Mismatched(expected, entries[..i], e.stage)
      {
        MismatchedNext(expected, entries, i);
        if Mismatch(expected, entries[i]) {
          errors := errors + [MeasurementMismatch(entries[i].stage.s)];
        }
      }
      assert entries[..|entries|] == entries;
    }

    /** Read the entries back; an unknown stage, or one that is not text, raises. */
    static method Parse(entries: seq<Entry>) returns (measurements: Option<seq<Measurement>>)
      requires forall i | 0 <= i < |entries| :: GoodEntry(entries[i])
      ensures measurements.Some? <==> KnownStages(entries)
      ensures measurements.Some? ==> measurements.value == AllMeasured(entries)
    {
      var ms := [];
      for i := 0 to |entries|
        invariant KnownStages(entries[..i]) && ms == AllMeasured(entries[..i])
      {
        if !entries[i].stage.Text? {
          return None;
        }
        var stage := StageOf(entries[i].stage.s);
        if stage.None? {
          return None;
        }
        assert entries[..i + 1] == entries[..i] + [entries[i]];
        ms := ms + [Measured(entries[i])];
      }
      assert entries[..|entries|] == entries;
      return Some(ms);
    }
  }
}
