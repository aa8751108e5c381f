/** What a signature binds. The keyed digest is taken of the canonical text of a
    document's body, so the text has to tell the body. */
module AttestationSigning {
  import opened Options
  import opened Attestation
  import opened CanonicalJson

  // ---- the text that is signed ------------------------------------------------

  /** An entry as a dictionary of strings. */
  function Fields(e: Entry): map<string, string>
    requires GoodEntry(e) && KnownStage(e)
  {
    if e.description.Some? then
      map["stage" := e.stage.s, "digest_sha256" := e.digest.s, "description" := e.description.value]
    else map["stage" := e.stage.s, "digest_sha256" := e.digest.s]
  }

  /** Entries that no accepted document has are not told apart. */
  ghost function EntryText(e: Entry): string {
    if GoodEntry(e) && KnownStage(e) then ObjectText(Fields(e)) else "null"
  }

  ghost function MoreEntries(entries: seq<Entry>): string {
    if entries == [] then "]" else "," + (EntryText(entries[0]) + MoreEntries(entries[1..]))
  }

  ghost function EntriesText(entries: seq<Entry>): string {
    if entries == [] then "[]" else "[" + (EntryText(entries[0]) + MoreEntries(entries[1..]))
  }

  /** `json.dumps` of the body with sorted keys and the shortest separators. */
  ghost function Canonical(b: Body): string {
    "{\"boot_id\":" + (Quoted(b.bootId) + FromCreatedAt(b))
  }

  ghost function FromCreatedAt(b: Body): string {
    ",\"created_at\":" + (Quoted(b.createdAt) + FromDeviceId(b))
  }

  ghost function FromDeviceId(b: Body): string {
    ",\"device_id\":" + (Quoted(b.deviceId) + FromMeasurements(b))
  }

  ghost function FromMeasurements(b: Body): string {
    ",\"measurements\":" + (EntriesText(b.entries) + FromPcrBank(b))
  }

  ghost function FromPcrBank(b: Body): string {
    ",\"pcr_bank\":" + (ObjectText(b.pcrBank) + FromRealm(b))
  }

  ghost function FromRealm(b: Body): string {
    ",\"realm\":" + (Quoted(b.realm) + FromSchemaVersion(b))
  }

  ghost function FromSchemaVersion(b: Body): string {
    ",\"schema_version\":" + (Quoted(b.schemaVersion) + FromSecurityVersion(b))
  }

  ghost function FromSecurityVersion(b: Body): string {
    ",\"security_version\":" + (Number(b.securityVersion) + "}")
  }

  // ---- it tells the body ------------------------------------------------------

  lemma FieldsUnique(e1: Entry, e2: Entry)
    requires GoodEntry(e1) && KnownStage(e1) && GoodEntry(e2) && KnownStage(e2) && Fields(e1) == Fields(e2)
    ensures e1 == e2
  {
    assert Fields(e1)["stage"] == Fields(e2)["stage"] && Fields(e1)["digest_sha256"] == Fields(e2)["digest_sha256"];
    assert "description" in Fields(e1) <==> "description" in Fields(e2);
    if "description" in Fields(e1) {
      assert Fields(e1)["description"] == Fields(e2)["description"];
    }
  }

  lemma EntryTextUnique(e1: Entry, x: string, e2: Entry, y: string)
    requires GoodEntry(e1) && KnownStage(e1) && GoodEntry(e2) && KnownStage(e2)
    requires EntryText(e1) + x == EntryText(e2) + y
    ensures e1 == e2 && x == y
  {
    hide ObjectText, GoodEntry, KnownStage, Fields;
    ObjectTextUnique(Fields(e1), x, Fields(e2), y);
    FieldsUnique(e1, e2);
  }

  lemma EntryTextStarts(e: Entry)
    ensures EntryText(e) != [] && EntryText(e)[0] != ']'
  {
    if GoodEntry(e) && KnownStage(e) {
      ObjectTextStarts(Fields(e));
    }
  }

  lemma Tail(entries: seq<Entry>)
    requires KnownStages(entries) && entries != []
    ensures KnownStages(entries[1..]) && GoodEntry(entries[0]) && KnownStage(entries[0])
  {
    assert forall i | 0 <= i < |entries| - 1 :: entries[1..][i] == entries[i + 1];
  }

  lemma MoreEntriesStart(entries: seq<Entry>, x: string)
    ensures (MoreEntries(entries) + x)[0] == ']' <==> entries == []
  {
    hide EntryText;
  }

  lemma {:induction false} MoreEntriesUnique(a: seq<Entry>, x: string, b: seq<Entry>, y: string)
    requires KnownStages(a) && KnownStages(b) && MoreEntries(a) + x == MoreEntries(b) + y
    ensures a == b && x == y
    decreases |a|
  {
    hide EntryText, KnownStages, KnownStage, GoodEntry;
    MoreEntriesStart(a, x);
    MoreEntriesStart(b, y);
    if a == [] {
      Cut("]", x, y);
    } else {
      Tail(a);
      Tail(b);
      var p, q := MoreEntries(a[1..]), MoreEntries(b[1..]);
      Regroup(",", EntryText(a[0]), p, x);
      Regroup(",", EntryText(b[0]), q, y);
      Cut(",", EntryText(a[0]) + (p + x), EntryText(b[0]) + (q + y));
      EntryTextUnique(a[0], p + x, b[0], q + y);
      MoreEntriesUnique(a[1..], x, b[1..], y);
      assert a == [a[0]] + a[1..] && b == [b[0]] + b[1..];
    }
  }

  lemma EntriesTextStart(entries: seq<Entry>, x: string)
    ensures |EntriesText(entries) + x| >= 2 && ((EntriesText(entries) + x)[1] == ']' <==> entries == [])
  {
    hide EntryText, MoreEntries;
    if entries != [] {
      EntryTextStarts(entries[0]);
      assert (EntriesText(entries) + x)[1] == EntryText(entries[0])[0];
    }
  }

  lemma EntriesTextUnique(a: seq<Entry>, x: string, b: seq<Entry>, y: string)
    requires KnownStages(a) && KnownStages(b) && EntriesText(a) + x == EntriesText(b) + y
    ensures a == b && x == y
  {
    hide EntryText, KnownStages, KnownStage, GoodEntry, MoreEntries;
    EntriesTextStart(a, x);
    EntriesTextStart(b, y);
    if a == [] {
      Cut("[]", x, y);
    } else {
      Tail(a);
      Tail(b);
      var p, q := MoreEntries(a[1..]), MoreEntries(b[1..]);
      Regroup("[", EntryText(a[0]), p, x);
      Regroup("[", EntryText(b[0]), q, y);
      Cut("[", EntryText(a[0]) + (p + x), EntryText(b[0]) + (q + y));
      EntryTextUnique(a[0], p + x, b[0], q + y);
      MoreEntriesUnique(a[1..], x, b[1..], y);
      assert a == [a[0]] + a[1..] && b == [b[0]] + b[1..];
    }
  }

  lemma LastFieldUnique(b1: Body, b2: Body)
    requires FromSecurityVersion(b1) == FromSecurityVersion(b2)
    ensures b1.securityVersion == b2.securityVersion
  {
    hide Number;
    var m, n := Number(b1.securityVersion), Number(b2.securityVersion);
    Cut(",\"security_version\":", m + "}", n + "}");
    assert (m + "}")[..|m + "}"| - 1] == m && (n + "}")[..|n + "}"| - 1] == n;
    NumberUnique(b1.securityVersion, b2.securityVersion);
  }

  lemma EndUnique(b1: Body, b2: Body)
    requires FromPcrBank(b1) == FromPcrBank(b2)
    ensures b1.pcrBank == b2.pcrBank && b1.realm == b2.realm && b1.schemaVersion == b2.schemaVersion
    ensures b1.securityVersion == b2.securityVersion
  {
    hide Quoted, ObjectText, FromSecurityVersion;
    Cut(",\"pcr_bank\":", ObjectText(b1.pcrBank) + FromRealm(b1), ObjectText(b2.pcrBank) + FromRealm(b2));
    ObjectTextUnique(b1.pcrBank, FromRealm(b1), b2.pcrBank, FromRealm(b2));
    Cut(",\"realm\":", Quoted(b1.realm) + FromSchemaVersion(b1), Quoted(b2.realm) + FromSchemaVersion(b2));
    QuotedUnique(b1.realm, FromSchemaVersion(b1), b2.realm, FromSchemaVersion(b2));
    Cut(",\"schema_version\":", Quoted(b1.schemaVersion) + FromSecurityVersion(b1),
        Quoted(b2.schemaVersion) + FromSecurityVersion(b2));
    QuotedUnique(b1.schemaVersion, FromSecurityVersion(b1), b2.schemaVersion, FromSecurityVersion(b2));
    LastFieldUnique(b1, b2);
  }

  /** Two bodies have the same canonical text only if they are the same: nothing in
      a field, whatever quotes, braces or escapes it holds, can pass for another. */
  lemma CanonicalUnique(b1: Body, b2: Body)
    requires KnownStages(b1.entries) && KnownStages(b2.entries) && Canonical(b1) == Canonical(b2)
    ensures b1 == b2
  {
    hide Quoted, EntriesText, KnownStages, FromPcrBank;
    Cut("{\"boot_id\":", Quoted(b1.bootId) + FromCreatedAt(b1), Quoted(b2.bootId) + FromCreatedAt(b2));
    QuotedUnique(b1.bootId, FromCreatedAt(b1), b2.bootId, FromCreatedAt(b2));
    Cut(",\"created_at\":", Quoted(b1.createdAt) + FromDeviceId(b1), Quoted(b2.createdAt) + FromDeviceId(b2));
    QuotedUnique(b1.createdAt, FromDeviceId(b1), b2.createdAt, FromDeviceId(b2));
    Cut(",\"device_id\":", Quoted(b1.deviceId) + FromMeasurements(b1), Quoted(b2.deviceId) + FromMeasurements(b2));
    QuotedUnique(b1.deviceId, FromMeasurements(b1), b2.deviceId, FromMeasurements(b2));
    Cut(",\"measurements\":", EntriesText(b1.entries) + FromPcrBank(b1), EntriesText(b2.entries) + FromPcrBank(b2));
    EntriesTextUnique(b1.entries, FromPcrBank(b1), b2.entries, FromPcrBank(b2));
    EndUnique(b1, b2);
  }

  // ---- so a signature binds the document ---------------------------------------

  /** Signing with a keyed digest of text. */
  ghost function Signing(hmac: string -> Ascii): Body -> Ascii {
    (b: Body) => hmac(Canonical(b))
  }

  /** Tampering with anything signed is noticed: two accepted documents with the same
      signature are the same document, or the keyed digest collides on two different
      texts, which this exhibits. */
  lemma SignatureDeterminesDocument(hash: string -> string, hmac: string -> Ascii, e1: Expected, e2: Expected,
                                    p1: bool, p2: bool, doc1: Doc, doc2: Doc) returns (x: string, y: string)
    requires Accepts(hash, Signing(hmac), e1, p1, doc1) && Accepts(hash, Signing(hmac), e2, p2, doc2)
    requires doc1.signature == doc2.signature
    ensures doc1 == doc2 || (x != y && hmac(x) == hmac(y))
  {
    hide Canonical, KnownStages, GoodEntry, Bank, AllMeasured, Mismatch;
    var b1, b2 := BodyOf(doc1), BodyOf(doc2);
    x, y := Canonical(b1), Canonical(b2);
    assert hmac(x) == Signing(hmac)(b1) && hmac(y) == Signing(hmac)(b2);
    if x == y {
      CanonicalUnique(b1, b2);
    }
  }
}
