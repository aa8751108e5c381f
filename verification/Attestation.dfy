/** Measured-boot evidence: the software register chain, the signed document and
    its verification. The hash and the keyed digest of a document are arbitrary
    functions. */
module Attestation {
  import opened Options

  datatype Stage = Bootloader | Kernel | Initrd | RootfsManifest | Launcher

  datatype Measurement = Measurement(stage: Stage, digest: string, description: string)

  const Order: seq<Stage> := [Bootloader, Kernel, Initrd, RootfsManifest, Launcher]

  const Registers: seq<string> := ["pcr1", "pcr2", "pcr3", "pcr4", "pcr5"]

  const Zeros := "0000000000000000000000000000000000000000000000000000000000000000"
  const Effs := "ffffffffffffffffffffffffffffffffffffffffffffffffffffffffffffffff"

  function StageName(stage: Stage): string {
    match stage
    case Bootloader => "bootloader"
    case Kernel => "kernel"
    case Initrd => "initrd"
    case RootfsManifest => "rootfs_manifest"
    case Launcher => "launcher"
  }

  function StageOf(name: string): Option<Stage> {
    if name == "bootloader" then Some(Bootloader)
    else if name == "kernel" then Some(Kernel)
    else if name == "initrd" then Some(Initrd)
    else if name == "rootfs_manifest" then Some(RootfsManifest)
    else if name == "launcher" then Some(Launcher)
    else None
  }

  // ---- the register chain ---------------------------------------------------

  /** The digest that counts for a stage: the last one measured, or 64 f's. */
  function Effective(measurements: seq<Measurement>, stage: Stage): string
    decreases |measurements|
  {
    if measurements == [] then Effs
    else
      var last := measurements[|measurements| - 1];
      if last.stage == stage then last.digest else Effective(measurements[..|measurements| - 1], stage)
  }

  function Digests(measurements: seq<Measurement>): seq<string> {
    seq(|Order|, i requires 0 <= i < |Order| => Effective(measurements, Order[i]))
  }

  /** Extend the register with each digest in turn. */
  function Extended(hash: string -> string, digests: seq<string>): string
    decreases |digests|
  {
    if digests == [] then Zeros
    else hash(Extended(hash, digests[..|digests| - 1]) + ":" + digests[|digests| - 1])
  }

  /** The bank after the first i stages. */
  function BankUpTo(hash: string -> string, digests: seq<string>, i: nat): map<string, string>
    requires i <= |Registers| && i <= |digests|
  {
    if i == 0 then map[] else BankUpTo(hash, digests, i - 1)[Registers[i - 1] := Extended(hash, digests[..i])]
  }

  function Bank(hash: string -> string, measurements: seq<Measurement>): map<string, string> {
    var d := Digests(measurements);
    map["pcr1" := Extended(hash, d[..1]), "pcr2" := Extended(hash, d[..2]), "pcr3" := Extended(hash, d[..3]),
        "pcr4" := Extended(hash, d[..4]), "pcr5" := Extended(hash, d[..5])]
  }

  // ---- documents ------------------------------------------------------------

  /** A field that ought to hold text. */
  datatype Field = Absent | NotText | Text(s: string)

  /** Text of ASCII characters, as every digest in hexadecimal is. */
  type Ascii = s: string | IsAscii(s) witness ""

  predicate IsAscii(s: string) {
    forall i | 0 <= i < |s| :: s[i] < '\U{80}'
  }

  /** One element of the measurements list of a document. */
  datatype Entry = NotObject | Object(stage: Field, digest: Field, description: Option<string>)

  datatype Entries = NotList | List(entries: seq<Entry>)

  datatype Doc = Doc(
    schemaVersion: Option<string>,
    realm: Option<string>,
    bootId: Option<string>,
    deviceId: Option<string>,
    measurements: Option<Entries>,
    pcrBank: Option<map<string, string>>,
    securityVersion: Option<int>,
    createdAt: Option<string>,
    signature: Field)

  /** What is signed. */
  datatype Body = Body(
    schemaVersion: string,
    realm: string,
    bootId: string,
    deviceId: string,
    entries: seq<Entry>,
    pcrBank: map<string, string>,
    securityVersion: int,
    createdAt: string)

  datatype Error =
    | MissingField(name: string)
    | UnsupportedSchemaVersion | InvalidRealm | MeasurementsEmpty
    | EntryNotObject(i: nat) | EntryIncomplete(i: nat) | EntryBadDigest(i: nat)
    | ProdRealmRejected | BadSignature | SecurityVersionTooLow | MeasurementMismatch(stage: string) | PcrBankMismatch

  datatype Verdict = Verdict(valid: bool, errors: seq<Error>) | Crashed

  datatype Expected = Expected(digests: map<string, string>, minSecurityVersion: int)

  const Required: seq<string> :=
    ["schema_version", "realm", "boot_id", "device_id", "measurements", "pcr_bank", "security_version", "created_at", "signature"]

  predicate Has(doc: Doc, field: string) {
    if field == "schema_version" then doc.schemaVersion.Some?
    else if field == "realm" then doc.realm.Some?
    else if field == "boot_id" then doc.bootId.Some?
    else if field == "device_id" then doc.deviceId.Some?
    else if field == "measurements" then doc.measurements.Some?
    else if field == "pcr_bank" then doc.pcrBank.Some?
    else if field == "security_version" then doc.securityVersion.Some?
    else if field == "created_at" then doc.createdAt.Some?
    else field == "signature" && !doc.signature.Absent?
  }

  predicate Complete(doc: Doc) {
    && doc.schemaVersion.Some? && doc.realm.Some? && doc.bootId.Some? && doc.deviceId.Some?
    && doc.measurements.Some? && doc.pcrBank.Some? && doc.securityVersion.Some? && doc.createdAt.Some?
    && !doc.signature.Absent?
  }

  predicate GoodEntry(e: Entry) {
    e.Object? && !e.stage.Absent? && e.digest.Text? && |e.digest.s| == 64
  }

  /** A document the schema accepts. */
  predicate WellFormed(doc: Doc) {
    && Complete(doc)
    && doc.schemaVersion == Some("1.0.0")
    && (doc.realm == Some("dev") || doc.realm == Some("prod"))
    && doc.measurements.value.List? && doc.measurements.value.entries != []
    && (forall i | 0 <= i < |doc.measurements.value.entries| :: GoodEntry(doc.measurements.value.entries[i]))
  }

  function BodyOf(doc: Doc): Body
    requires WellFormed(doc)
  {
    Body(doc.schemaVersion.value, doc.realm.value, doc.bootId.value, doc.deviceId.value,
         doc.measurements.value.entries, doc.pcrBank.value, doc.securityVersion.value, doc.createdAt.value)
  }

  /** The stage is text, and the name of one. */
  predicate KnownStage(e: Entry) {
    e.Object? && e.stage.Text? && StageOf(e.stage.s).Some?
  }

  /** The signature can be compared: it is ASCII text. */
  predicate Comparable(doc: Doc) {
    doc.signature.Text? && IsAscii(doc.signature.s)
  }

  predicate KnownStages(entries: seq<Entry>) {
    forall i | 0 <= i < |entries| :: GoodEntry(entries[i]) && KnownStage(entries[i])
  }

  function Measured(e: Entry): Measurement
    requires GoodEntry(e) && KnownStage(e)
  {
    Measurement(StageOf(e.stage.s).value, e.digest.s, if e.description.Some? then e.description.value else "")
  }

  function AllMeasured(entries: seq<Entry>): seq<Measurement>
    requires KnownStages(entries)
  {
    seq(|entries|, i requires 0 <= i < |entries| => Measured(entries[i]))
  }

  /** The entry contradicts an expected digest of its stage. */
  predicate Mismatch(expected: Expected, e: Entry)
    requires GoodEntry(e)
  {
    e.stage.Text? && e.stage.s in expected.digests && expected.digests[e.stage.s] != e.digest.s
  }

  /** What verification promises of an accepted document. */
  predicate Accepts(hash: string -> string, mac: Body -> Ascii, expected: Expected, allowProd: bool, doc: Doc) {
    && WellFormed(doc)
    && (doc.realm == Some("prod") ==> allowProd)
    && doc.signature == Text(mac(BodyOf(doc)))
    && doc.securityVersion.value >= expected.minSecurityVersion
    && (forall i | 0 <= i < |doc.measurements.value.entries| :: !Mismatch(expected, doc.measurements.value.entries[i]))
    && KnownStages(doc.measurements.value.entries)
    && doc.pcrBank.value == Bank(hash, AllMeasured(doc.measurements.value.entries))
  }
}
