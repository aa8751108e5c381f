/** The evidence of a boot and its canonical text, spelled out. */
module AttestationLaws {
  import opened Options
  import opened Attestation
  import opened AttestationObjects
  import opened CanonicalJson
  import opened AttestationSigning

  // ---- the registers ----------------------------------------------------------

  /** The digest that counts is the one measured last for the stage. */
  lemma {:induction false} LastMeasuredCounts(m: seq<Measurement>, stage: Stage, i: nat)
    requires i < |m| && m[i].stage == stage && forall k | i < k < |m| :: m[k].stage != stage
    ensures Effective(m, stage) == m[i].digest
  {
    if i < |m| - 1 {
      assert m[|m| - 1].stage != stage;
      LastMeasuredCounts(m[..|m| - 1], stage, i);
    }
  }

  lemma {:induction false} UnmeasuredCounts(m: seq<Measurement>, stage: Stage)
    requires forall k | 0 <= k < |m| :: m[k].stage != stage
    ensures Effective(m, stage) == Effs
  {
    if m != [] {
      UnmeasuredCounts(m[..|m| - 1], stage);
    }
  }

  /** The five registers, each hashed from the one before and the digest of its
      stage, the first from zeros. */
  lemma RegistersAreChained(hash: string -> string, m: seq<Measurement>)
    ensures var r1 := hash(Zeros + ":" + Effective(m, Bootloader));
            var r2 := hash(r1 + ":" + Effective(m, Kernel));
            var r3 := hash(r2 + ":" + Effective(m, Initrd));
            var r4 := hash(r3 + ":" + Effective(m, RootfsManifest));
            var r5 := hash(r4 + ":" + Effective(m, Launcher));
            Bank(hash, m) == map["pcr1" := r1, "pcr2" := r2, "pcr3" := r3, "pcr4" := r4, "pcr5" := r5]
    ensures |Zeros| == |Effs| == 64
  {
    hide Effective, Extended;
    ExtendedNone(hash, Digests(m));
    NextRegister(hash, m, 0, Effective(m, Bootloader));
    NextRegister(hash, m, 1, Effective(m, Kernel));
    NextRegister(hash, m, 2, Effective(m, Initrd));
    NextRegister(hash, m, 3, Effective(m, RootfsManifest));
    NextRegister(hash, m, 4, Effective(m, Launcher));
  }

  // ---- the document -----------------------------------------------------------

  /** What the builder writes is what it was given, and what it signs is what it
      writes. */
  lemma BuiltCarriesArguments(hash: string -> string, mac: Body -> Ascii, bootId: string, deviceId: string,
                              stageDigests: seq<(string, string)>, securityVersion: int, createdAt: string)
    requires forall i | 0 <= i < |stageDigests| :: StageOf(stageDigests[i].0).Some?
    ensures var doc := Built(hash, mac, bootId, deviceId, stageDigests, securityVersion, createdAt);
            && doc.schemaVersion == Some("1.0.0") && doc.realm == Some("dev")
            && doc.bootId == Some(bootId) && doc.deviceId == Some(deviceId)
            && doc.securityVersion == Some(securityVersion) && doc.createdAt == Some(createdAt)
            && doc.measurements.Some? && doc.measurements.value.List?
            && |doc.measurements.value.entries| == |stageDigests|
            && (forall i | 0 <= i < |stageDigests| ::
                  doc.measurements.value.entries[i] ==
                  Object(Text(stageDigests[i].0), Text(stageDigests[i].1), Some("dev measurement for " + stageDigests[i].0)))
            && (WellFormed(doc) ==> doc.signature == Text(mac(BodyOf(doc))))
  {
    BuiltEntriesAre(stageDigests);
  }

  lemma BuiltEntriesAre(stageDigests: seq<(string, string)>)
    requires forall i | 0 <= i < |stageDigests| :: StageOf(stageDigests[i].0).Some?
    ensures var entries := ToEntries(DevMeasurements(stageDigests));
            && |entries| == |stageDigests|
            && forall i | 0 <= i < |stageDigests| ::
                 entries[i] == Object(Text(stageDigests[i].0), Text(stageDigests[i].1),
                                      Some("dev measurement for " + stageDigests[i].0))
  {
    forall i | 0 <= i < |stageDigests| ensures StageName(StageOf(stageDigests[i].0).value) == stageDigests[i].0 {
    }
  }

  // ---- the canonical text -----------------------------------------------------

  predicate Plain(s: string) {
    forall i | 0 <= i < |s| :: ' ' <= s[i] <= '~' && s[i] != '"' && s[i] != '\\'
  }

  /** Printable ASCII text stands for itself between quotes. */
  lemma {:induction false} PlainIsVerbatim(s: string)
    requires Plain(s)
    ensures Quoted(s) == "\"" + s + "\""
  {
    if s != [] {
      PlainIsVerbatim(s[1..]);
      assert EscapeChar(s[0]) == [s[0]];
      assert Quoted(s[1..])[1..|s|] == Escaped(s[1..]) && ("\"" + s[1..] + "\"")[1..|s|] == s[1..];
      assert s == [s[0]] + s[1..];
    }
  }

  /** The other characters: seven have a short escape, the rest become the four
      hexadecimal digits of their code, or of their two surrogates. */
  lemma EscapesAre(c: char)
    ensures EscapeChar('"') == ['\\', '"'] && EscapeChar('\\') == ['\\', '\\'] && EscapeChar('\n') == ['\\', 'n']
    ensures EscapeChar('\r') == ['\\', 'r'] && EscapeChar('\t') == ['\\', 't']
    ensures EscapeChar(8 as char) == ['\\', 'b'] && EscapeChar(12 as char) == ['\\', 'f']
    ensures var n := c as int;
            && (0x7F <= n < 0x1_0000 ==>
                  |EscapeChar(c)| == 6 && EscapeChar(c)[..2] == ['\\', 'u'] && Hexadecimal(EscapeChar(c)[2..]) == n)
            && (0x1_0000 <= n ==>
                  && |EscapeChar(c)| == 12 && EscapeChar(c)[..2] == EscapeChar(c)[6..8] == ['\\', 'u']
                  && (Hexadecimal(EscapeChar(c)[2..6]) - 0xD800) * 0x400 + (Hexadecimal(EscapeChar(c)[8..]) - 0xDC00)
                     == n - 0x1_0000)
  {
    var n := c as int;
    if 0x7F <= n < 0x1_0000 {
      HexReadsBack(n);
      assert EscapeChar(c)[2..] == Hex4(n);
    } else if 0x1_0000 <= n {
      var high, low := 0xD800 + (n - 0x1_0000) / 0x400, 0xDC00 + (n - 0x1_0000) % 0x400;
      HexReadsBack(high);
      HexReadsBack(low);
      assert EscapeChar(c)[2..6] == Hex4(high) && EscapeChar(c)[8..] == Hex4(low);
    }
  }

  function HexValue(c: char): int {
    if '0' <= c <= '9' then c as int - '0' as int else c as int - 'a' as int + 10
  }

  /** The number a text of hexadecimal digits stands for. */
  function Hexadecimal(s: string): int {
    if s == [] then 0 else 16 * Hexadecimal(s[..|s| - 1]) + HexValue(s[|s| - 1])
  }

  lemma FourDigits(h: string)
    requires |h| == 4
    ensures Hexadecimal(h) == 16 * (16 * (16 * HexValue(h[0]) + HexValue(h[1])) + HexValue(h[2])) + HexValue(h[3])
  {
    hide HexValue;
    assert h[..3][..2] == h[..2] && h[..2][..1] == h[..1] && h[..1][..0] == [];
    assert Hexadecimal(h[..1]) == 16 * Hexadecimal([]) + HexValue(h[0]);
    assert Hexadecimal(h[..2]) == 16 * Hexadecimal(h[..1]) + HexValue(h[1]);
    assert Hexadecimal(h[..3]) == 16 * Hexadecimal(h[..2]) + HexValue(h[2]);
  }

  lemma HexValueOfHex(n: nat)
    requires n < 16
    ensures HexValue(Hex(n)) == n
  {
  }

  lemma HexReadsBack(n: nat)
    requires n < 0x1_0000
    ensures Hexadecimal(Hex4(n)) == n
  {
    hide HexValue, Hex, Hexadecimal;
    FourDigits(Hex4(n));
    HexValueOfHex(n / 4096);
    HexValueOfHex(n / 256 % 16);
    HexValueOfHex(n / 16 % 16);
    HexValueOfHex(n % 16);
    assert n / 256 == 16 * (n / 4096) + n / 256 % 16 && n / 16 == 16 * (n / 256) + n / 16 % 16;
  }

  /** The number a text of decimal digits stands for. */
  function Decimal(s: string): int {
    if s == [] then 0 else 10 * Decimal(s[..|s| - 1]) + (s[|s| - 1] as int - '0' as int)
  }

  lemma {:induction false} DigitsReadBack(n: nat)
    ensures Decimal(Digits(n)) == n
    ensures forall i | 0 <= i < |Digits(n)| :: '0' <= Digits(n)[i] <= '9'
    ensures Digits(n) != [] && (n > 0 ==> Digits(n)[0] != '0')
  {
    if n >= 10 {
      DigitsReadBack(n / 10);
      assert Digits(n)[..|Digits(n)| - 1] == Digits(n / 10);
    }
  }
}
