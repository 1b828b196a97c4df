/**
 * The captured master-secret events and the key-log lines the TLS probe
 * derives from them (`saveMasterSecret` and `saveMasterSecretBSSL` in
 * user/module/probe_openssl.go), together with the null-secret guards applied
 * to BoringSSL events.
 */
module KeySchedule {
  import opened Wrappers
  import opened Bytes
  import opened KeyLog

  /** Protocol-version tags carried by the events (the TLS wire values). */
  const Tls12Version: int := 0x0303
  const Tls13Version: int := 0x0304

  /** Widths of the fixed-size buffers the kernel side fills in. */
  const Ssl3RandomSize: nat := 32
  const MasterSecretMaxLen: nat := 48
  const EvpMaxMdSize: nat := 64

  type ClientRandom = s: seq<byte> | |s| == Ssl3RandomSize witness seq(32, _ => 0)
  type MasterKeyBuffer = s: seq<byte> | |s| == MasterSecretMaxLen witness seq(48, _ => 0)
  type DigestBuffer = s: seq<byte> | |s| == EvpMaxMdSize witness seq(64, _ => 0)

  /** TLS 1.3 cipher suites, appendix B.4 of RFC 8446. */
  const TlsAes128GcmSha256: int := 0x1301
  const TlsAes256GcmSha384: int := 0x1302
  const TlsChacha20Poly1305Sha256: int := 0x1303

  /** HKDF-Expand-Label labels of the handshake traffic secrets, section 7.1 of RFC 8446. */
  const ClientHandshakeTrafficLabel: string := "c hs traffic"
  const ServerHandshakeTrafficLabel: string := "s hs traffic"

  datatype HashAlg = Sha256 | Sha384

  function DigestSize(h: HashAlg): nat {
    match h
    case Sha256 => 32
    case Sha384 => 48
  }

  /**
   * HKDF-Expand-Label(secret, label, context, length) under a transcript hash.
   * The construction itself lives outside this model; all that is assumed of
   * it is that it is a function of its inputs returning `length` bytes.
   */
  type Expander = f: (seq<byte>, string, seq<byte>, nat, HashAlg) -> seq<byte>
    | forall secret, tag, context, length, hash :: |f(secret, tag, context, length, hash)| == length
    witness (secret: seq<byte>, tag: string, context: seq<byte>, length: nat, hash: HashAlg) => seq(length, _ => 0)

  /** An OpenSSL-shaped master-secret event, as decoded from the kernel channel. */
  datatype MasterSecretEvent = MasterSecretEvent(
    version: int32,
    clientRandom: ClientRandom,
    masterKey: MasterKeyBuffer,
    cipherId: uint32,
    handshakeSecret: DigestBuffer,
    handshakeTrafficHash: DigestBuffer,
    clientAppTrafficSecret: DigestBuffer,
    serverAppTrafficSecret: DigestBuffer,
    exporterMasterSecret: DigestBuffer)

  /** A BoringSSL-shaped event: every secret already derived, `hashLen` bytes of each valid. */
  datatype MasterSecretBsslEvent = MasterSecretBsslEvent(
    version: int32,
    clientRandom: ClientRandom,
    hashLen: uint8,
    secret: MasterKeyBuffer,
    earlyTrafficSecret: DigestBuffer,
    clientHandshakeSecret: DigestBuffer,
    serverHandshakeSecret: DigestBuffer,
    clientTrafficSecret0: DigestBuffer,
    serverTrafficSecret0: DigestBuffer,
    exporterSecret: DigestBuffer)

  /** Secret length and transcript hash selected by a TLS 1.3 cipher suite. */
  datatype Suite = Suite(length: nat, transcript: HashAlg)

  /** The suite named by the low 16 bits of `cipherId`, if it is one of the three TLS 1.3 suites. */
  function CipherSuite(cipherId: uint32): (r: Option<Suite>)
    ensures r.Some? <==> cipherId % 0x1_0000 in {TlsAes128GcmSha256, TlsAes256GcmSha384, TlsChacha20Poly1305Sha256}
    ensures r.Some? ==> r.value.length == DigestSize(r.value.transcript) <= EvpMaxMdSize
    ensures r.Some? ==> (r.value.transcript == Sha384 <==> cipherId % 0x1_0000 == TlsAes256GcmSha384)
  {
    var suite := cipherId % 0x1_0000;
    if suite == TlsAes128GcmSha256 || suite == TlsChacha20Poly1305Sha256 then Some(Suite(32, Sha256))
    else if suite == TlsAes256GcmSha384 then Some(Suite(48, Sha384))
    else None
  }

  /**
   * The lines `saveMasterSecret` writes for an event it has not seen before;
   * None when a TLS 1.3 event names an unknown cipher suite.
   */
  function OpenSslLines(e: MasterSecretEvent, expand: Expander): (r: Option<seq<Line>>)
    ensures r.None? ==> e.version == Tls13Version
    ensures r.Some? ==> |r.value| == (if e.version == Tls13Version then 5 else 1)
    ensures r.Some? ==> forall i :: 0 <= i < |r.value| ==> r.value[i].clientRandom == e.clientRandom
  {
    var cr := e.clientRandom;
    if e.version == Tls13Version then
      match CipherSuite(e.cipherId)
      case None => None
      case Some(suite) =>
        var n := suite.length;
        var hs, th := e.handshakeSecret[..n], e.handshakeTrafficHash[..n];
        Some([Line(LabelClientHandshake, cr, expand(hs, ClientHandshakeTrafficLabel, th, n, suite.transcript)),
              Line(LabelServerHandshake, cr, expand(hs, ServerHandshakeTrafficLabel, th, n, suite.transcript)),
              Line(LabelClientTraffic, cr, e.clientAppTrafficSecret),
              Line(LabelServerTraffic, cr, e.serverAppTrafficSecret),
              Line(LabelExporterSecret, cr, e.exporterMasterSecret[..n])])
    else
      Some([Line(LabelTls12, cr, e.masterKey)])
  }

  function Tags(ls: seq<Line>): seq<string> {
    seq(|ls|, i requires 0 <= i < |ls| => ls[i].tag)
  }

  /** Lines of one session: non-empty, well-labelled, every line naming the same client random. */
  predicate OneSession(ls: seq<Line>, cr: seq<byte>) {
    ls != [] && PlainLabels(ls) && forall i :: 0 <= i < |ls| ==> ls[i].clientRandom == cr
  }

  /** TLS 1.2 and every version other than 1.3: one CLIENT_RANDOM line that decodes back to the captured bytes. */
  lemma OpenSslTls12Line(e: MasterSecretEvent, expand: Expander)
    requires e.version != Tls13Version
    ensures OpenSslLines(e, expand) == Some([Line(LabelTls12, e.clientRandom, e.masterKey)])
    ensures Parse(Render(OpenSslLines(e, expand).value)) == Some([Line(LabelTls12, e.clientRandom, e.masterKey)])
  {
    LabelsArePlain();
    ParseRender([Line(LabelTls12, e.clientRandom, e.masterKey)]);
  }

  /**
   * TLS 1.3: nothing for an unknown suite; otherwise five lines, handshake
   * secrets expanded at the suite's digest length, application secrets
   * untruncated, exporter truncated to that length.
   */
  lemma OpenSslTls13Lines(e: MasterSecretEvent, expand: Expander)
    requires e.version == Tls13Version
    ensures OpenSslLines(e, expand).None? <==> CipherSuite(e.cipherId).None?
    ensures OpenSslLines(e, expand).Some? ==>
      var ls, suite := OpenSslLines(e, expand).value, CipherSuite(e.cipherId).value;
      var n := DigestSize(suite.transcript);
      && Tags(ls) == [LabelClientHandshake, LabelServerHandshake, LabelClientTraffic, LabelServerTraffic, LabelExporterSecret]
      && OneSession(ls, e.clientRandom)
      && ls[0].secret == expand(e.handshakeSecret[..n], ClientHandshakeTrafficLabel, e.handshakeTrafficHash[..n], n, suite.transcript)
      && ls[1].secret == expand(e.handshakeSecret[..n], ServerHandshakeTrafficLabel, e.handshakeTrafficHash[..n], n, suite.transcript)
      && ls[2].secret == e.clientAppTrafficSecret && |ls[2].secret| == EvpMaxMdSize
      && ls[3].secret == e.serverAppTrafficSecret && |ls[3].secret| == EvpMaxMdSize
      && ls[4].secret == e.exporterMasterSecret[..n]
      && |ls[0].secret| == |ls[1].secret| == |ls[4].secret| == n
  {
    LabelsArePlain();
  }

  /** Derivation is deterministic: the handshake lines depend only on the suite and the two truncated inputs. */
  lemma HandshakeSecretsDeterministic(e1: MasterSecretEvent, e2: MasterSecretEvent, expand: Expander)
    requires e1.version == e2.version == Tls13Version
    requires e1.cipherId % 0x1_0000 == e2.cipherId % 0x1_0000
    requires CipherSuite(e1.cipherId).Some?
    requires var n := CipherSuite(e1.cipherId).value.length;
      e1.handshakeSecret[..n] == e2.handshakeSecret[..n] && e1.handshakeTrafficHash[..n] == e2.handshakeTrafficHash[..n]
    ensures OpenSslLines(e1, expand).value[0].secret == OpenSslLines(e2, expand).value[0].secret
    ensures OpenSslLines(e1, expand).value[1].secret == OpenSslLines(e2, expand).value[1].secret
  {
    assert CipherSuite(e1.cipherId) == CipherSuite(e2.cipherId);
  }

  /** Whatever `saveMasterSecret` writes belongs to the event's session. */
  lemma OpenSslLinesOneSession(e: MasterSecretEvent, expand: Expander)
    requires OpenSslLines(e, expand).Some?
    ensures OneSession(OpenSslLines(e, expand).value, e.clientRandom)
  {
    LabelsArePlain();
  }

  /** Width of the secret buffers `saveMasterSecretBSSL` slices for a version. */
  function BsslWidth(version: int): nat {
    if version == Tls12Version then MasterSecretMaxLen else EvpMaxMdSize
  }

  /** `bSSLEvent12NullSecrets`: the TLS 1.2 secret is zero on `[0, hashLen)`. */
  predicate NullSecrets12(e: MasterSecretBsslEvent)
    requires e.hashLen <= MasterSecretMaxLen
  {
    ZeroPrefix(e.secret, e.hashLen)
  }

  /** At least one of the five TLS 1.3 secrets is zero on `[0, n)`. */
  predicate SomeNullSecret13(e: MasterSecretBsslEvent, n: nat)
    requires n <= EvpMaxMdSize
  {
    || ZeroPrefix(e.clientHandshakeSecret, n)
    || ZeroPrefix(e.clientTrafficSecret0, n)
    || ZeroPrefix(e.serverHandshakeSecret, n)
    || ZeroPrefix(e.serverTrafficSecret0, n)
    || ZeroPrefix(e.exporterSecret, n)
  }

  /** `bSSLEvent13NullSecrets`: some TLS 1.3 secret is zero on `[0, hashLen)`. */
  predicate NullSecrets13(e: MasterSecretBsslEvent)
    requires e.hashLen <= EvpMaxMdSize
  {
    SomeNullSecret13(e, e.hashLen)
  }

  /** 1 for a buffer already found non-zero, 0 otherwise. */
  function CheckedCount(checked: bool): nat {
    if checked then 1 else 0
  }

  /** The TLS 1.2 guard, as the source's early-exit scan. */
  method BsslEvent12NullSecrets(e: MasterSecretBsslEvent) returns (isNull: bool)
    requires e.hashLen <= MasterSecretMaxLen
    ensures isNull <==> NullSecrets12(e)
  {
    isNull := true;
    var hashLen := e.hashLen;
    var i := 0;
    while i < hashLen
      invariant i <= hashLen
      invariant isNull
      invariant ZeroPrefix(e.secret, i)
    {
      if e.secret[i] != 0 {
        isNull := false;
        break;
      }
      i := i + 1;
    }
  }

  /**
   * The TLS 1.3 guard: one pass over `[0, hashLen)` marking each buffer the
   * first time a non-zero byte is seen, counting down from five.
   */
  method BsslEvent13NullSecrets(e: MasterSecretBsslEvent) returns (isNull: bool)
    requires e.hashLen <= EvpMaxMdSize
    ensures isNull <==> NullSecrets13(e)
  {
    var isNullCount := 5;
    var hashLen := e.hashLen;
    var chsChecked, ctsChecked, shsChecked, stsChecked, esChecked := false, false, false, false, false;
    var i := 0;
    while i < hashLen
      invariant i <= hashLen
      invariant chsChecked <==> !ZeroPrefix(e.clientHandshakeSecret, i)
      invariant ctsChecked <==> !ZeroPrefix(e.clientTrafficSecret0, i)
      invariant shsChecked <==> !ZeroPrefix(e.serverHandshakeSecret, i)
      invariant stsChecked <==> !ZeroPrefix(e.serverTrafficSecret0, i)
      invariant esChecked <==> !ZeroPrefix(e.exporterSecret, i)
      invariant isNullCount + CheckedCount(chsChecked) + CheckedCount(ctsChecked) + CheckedCount(shsChecked)
                + CheckedCount(stsChecked) + CheckedCount(esChecked) == 5
      invariant 0 <= isNullCount <= 5
    {
      if !chsChecked && e.clientHandshakeSecret[i] != 0 {
        isNullCount := isNullCount - 1;
        chsChecked := true;
      }
      if !ctsChecked && e.clientTrafficSecret0[i] != 0 {
        isNullCount := isNullCount - 1;
        ctsChecked := true;
      }
      if !shsChecked && e.serverHandshakeSecret[i] != 0 {
        isNullCount := isNullCount - 1;
        shsChecked := true;
      }
      if !stsChecked && e.serverTrafficSecret0[i] != 0 {
        isNullCount := isNullCount - 1;
        stsChecked := true;
      }
      if !esChecked && e.exporterSecret[i] != 0 {
        isNullCount := isNullCount - 1;
        esChecked := true;
      }
      i := i + 1;
    }
    isNull := isNullCount != 0;
  }

  /** The lines `saveMasterSecretBSSL` writes once the event has passed its guard. */
  function BsslLines(e: MasterSecretBsslEvent): (r: seq<Line>)
    requires e.hashLen <= BsslWidth(e.version)
    ensures |r| == (if e.version == Tls12Version then 1 else 5)
    ensures forall i :: 0 <= i < |r| ==> r[i].clientRandom == e.clientRandom && |r[i].secret| == e.hashLen
  {
    var cr, n := e.clientRandom, e.hashLen;
    if e.version == Tls12Version then
      [Line(LabelTls12, cr, e.secret[..n])]
    else
      [Line(LabelClientHandshake, cr, e.clientHandshakeSecret[..n]),
       Line(LabelClientTraffic, cr, e.clientTrafficSecret0[..n]),
       Line(LabelServerHandshake, cr, e.serverHandshakeSecret[..n]),
       Line(LabelServerTraffic, cr, e.serverTrafficSecret0[..n]),
       Line(LabelExporterSecret, cr, e.exporterSecret[..n])]
  }

  /** The event passes its version's null guard. */
  predicate BsslAccepted(e: MasterSecretBsslEvent)
    requires e.hashLen <= BsslWidth(e.version)
  {
    if e.version == Tls12Version then !NullSecrets12(e) else !NullSecrets13(e)
  }

  /**
   * TLS 1.2 gives one CLIENT_RANDOM line of `secret[:hashLen]`; every other
   * version is treated as 1.3 and gives CHS, CTS, SHS, STS, ES in that order,
   * each truncated to `hashLen`. An accepted event has `hashLen >= 1`, so no
   * written secret is empty.
   */
  lemma BsslLinesShape(e: MasterSecretBsslEvent)
    requires e.hashLen <= BsslWidth(e.version)
    ensures OneSession(BsslLines(e), e.clientRandom)
    ensures e.version == Tls12Version ==>
      BsslLines(e) == [Line(LabelTls12, e.clientRandom, e.secret[..e.hashLen])]
    ensures e.version != Tls12Version ==>
      && Tags(BsslLines(e)) == [LabelClientHandshake, LabelClientTraffic, LabelServerHandshake, LabelServerTraffic, LabelExporterSecret]
      && BsslLines(e)[0].secret == e.clientHandshakeSecret[..e.hashLen]
      && BsslLines(e)[1].secret == e.clientTrafficSecret0[..e.hashLen]
      && BsslLines(e)[2].secret == e.serverHandshakeSecret[..e.hashLen]
      && BsslLines(e)[3].secret == e.serverTrafficSecret0[..e.hashLen]
      && BsslLines(e)[4].secret == e.exporterSecret[..e.hashLen]
    ensures BsslAccepted(e) ==> e.hashLen >= 1 && forall i :: 0 <= i < |BsslLines(e)| ==> |BsslLines(e)[i].secret| == e.hashLen
  {
    LabelsArePlain();
  }
}
