/**
 * The OpenSSL/BoringSSL probe object of user/module/probe_openssl.go: mode
 * selection at `Init`, resolution of the bytecode flavour and the master-key
 * hook, the uprobe hook plan, the decoder registry, and the secret store
 * whose transitions `SecretStore` specifies.
 */
module ProbeOpenssl {
  import opened Wrappers
  import opened Bytes
  import opened KeyLog
  import opened KeySchedule
  import opened SecretStore
  import opened Ebpf
  import opened Registry

  /** The configuration fields the probe reads. */
  datatype OpensslConfig = OpensslConfig(
    pid: int,
    uid: int,
    port: int,
    write: string,
    sslVersion: string,
    elfType: ElfType,
    curlpath: string,
    openssl: string,
    enableGlobalVar: bool)

  /** The hooked function that yields master secrets: BoringSSL's and OpenSSL's. */
  const MasterKeyHookFuncBoringSsl := "SSL_in_init"
  const MasterKeyHookFuncOpenSsl := "SSL_write"
  const BoringSslMarker := "boringssl"
  const DefaultLibSsl := "/lib/x86_64-linux-gnu/libssl.so.1.1"
  const MasterKeyProbeUid := "uprobe_ssl_master_key"
  const TlsEventsMap := "tls_events"
  const ConnectEventsMap := "connect_events"
  const MasterSecretEventsMap := "mastersecret_events"

  /** TC mode iff a capture file is configured. */
  function ModeFor(write: string): (m: ProgramType)
    ensures m == OpensslTc <==> |write| > 0
  {
    if |write| > 0 then OpensslTc else OpensslUprobe
  }

  /**
   * The bytecode file `getSslBpfFile` settles on: the table's entry for a
   * non-empty version it knows, otherwise what detection on the library
   * finds; a failed detection keeps the previous file and is an error.
   */
  function ResolveBpfFile(table: map<string, string>, sslVersion: string, soPath: string,
                          detect: string -> Option<string>, current: string): (r: (string, Option<ProbeError>))
    ensures sslVersion != "" && sslVersion in table ==> r == (table[sslVersion], None)
    ensures !(sslVersion != "" && sslVersion in table) ==>
      r == if detect(soPath).Some? then (detect(soPath).value, None) else (current, Some(DetectFailed))
  {
    if sslVersion != "" && sslVersion in table then (table[sslVersion], None)
    else match detect(soPath)
      case Some(f) => (f, None)
      case None => (current, Some(DetectFailed))
  }

  /** The hook for master secrets follows the flavour of the chosen bytecode. */
  function HookFuncFor(bpfFile: string): (h: string)
    ensures Contains(bpfFile, BoringSslMarker) ==> h == MasterKeyHookFuncBoringSsl
    ensures !Contains(bpfFile, BoringSslMarker) ==> h == MasterKeyHookFuncOpenSsl
  {
    if Contains(bpfFile, BoringSslMarker) then MasterKeyHookFuncBoringSsl else MasterKeyHookFuncOpenSsl
  }

  /** The object to hook: the curl binary, the configured library, or the default libssl. */
  function UprobeBinaryPath(conf: OpensslConfig): (p: string)
    ensures conf.elfType == ElfBin ==> p == conf.curlpath
    ensures conf.elfType == ElfSo ==> p == conf.openssl
    ensures conf.elfType == ElfUnset ==> p == DefaultLibSsl
  {
    match conf.elfType
    case ElfBin => conf.curlpath
    case ElfSo => conf.openssl
    case ElfUnset => DefaultLibSsl
  }

  function UprobePlan(path: string, masterHookFunc: string): (m: Manager)
    ensures |m.probes| == 5 && |m.maps| == 3
    ensures forall i :: 0 <= i < |m.probes| ==> m.probes[i].binaryPath == path
  {
    Manager(
      [ Probe("uprobe/SSL_write", "probe_entry_SSL_write", "SSL_write", path, ""),
        Probe("uretprobe/SSL_write", "probe_ret_SSL_write", "SSL_write", path, ""),
        Probe("uprobe/SSL_read", "probe_entry_SSL_read", "SSL_read", path, ""),
        Probe("uretprobe/SSL_read", "probe_ret_SSL_read", "SSL_read", path, ""),
        Probe("uprobe/SSL_write_key", "probe_ssl_master_key", masterHookFunc, path, MasterKeyProbeUid) ],
      [TlsEventsMap, ConnectEventsMap, MasterSecretEventsMap])
  }

  /**
   * Exactly five probes, all on the one path: entry and return of `SSL_write`
   * and `SSL_read`, and the master-key probe, the only one with an identifier,
   * on the resolved hook; and exactly the three event maps.
   */
  lemma UprobePlanShape(path: string, masterHookFunc: string)
    ensures var m := UprobePlan(path, masterHookFunc);
      && |m.probes| == 5
      && (forall p :: p in m.probes ==> p.binaryPath == path)
      && ProbeSections(m.probes) == ["uprobe/SSL_write", "uretprobe/SSL_write", "uprobe/SSL_read", "uretprobe/SSL_read", "uprobe/SSL_write_key"]
      && (forall i :: 0 <= i < 5 ==> (m.probes[i].uid != "" <==> i == 4))
      && m.probes[4].attachToFuncName == masterHookFunc && m.probes[4].uid == MasterKeyProbeUid
      && m.maps == [TlsEventsMap, ConnectEventsMap, MasterSecretEventsMap]
  {
  }

  /** `constantEditor`: the target pid, uid and port, each as `uint64`. */
  function OpensslEditors(conf: OpensslConfig): (es: seq<ConstantEditor>)
    ensures EditorNames(es) == ["target_pid", "target_uid", "target_port"]
    ensures |es| == 3 && es[0].value == Uint64(conf.pid) && es[1].value == Uint64(conf.uid) && es[2].value == Uint64(conf.port)
  {
    [Editor("target_pid", conf.pid), Editor("target_uid", conf.uid), Editor("target_port", conf.port)]
  }

  /** The channels `initDecodeFun` registers, the master-secret decoder chosen by flavour. */
  function OpensslChannels(isBoringSsl: bool): (chs: seq<(string, Decoder)>)
    ensures |chs| == 3
    ensures chs[2].1 == MasterSecretBsslDecoder <==> isBoringSsl
  {
    [ (TlsEventsMap, SslDataDecoder),
      (ConnectEventsMap, ConnDataDecoder),
      (MasterSecretEventsMap, if isBoringSsl then MasterSecretBsslDecoder else MasterSecretDecoder) ]
  }

  /** The decoder registry covers exactly the maps the plan declares. */
  lemma OpensslChannelsMatchPlan(path: string, masterHookFunc: string, isBoringSsl: bool)
    ensures |OpensslChannels(isBoringSsl)| == |UprobePlan(path, masterHookFunc).maps|
    ensures forall i :: 0 <= i < |OpensslChannels(isBoringSsl)| ==>
      OpensslChannels(isBoringSsl)[i].0 == UprobePlan(path, masterHookFunc).maps[i]
  {
  }

  /**
   * When all three maps are found, as distinct handles, the registry grows by
   * those three in order and the master-secret channel decodes BoringSSL
   * events exactly when the flavour is BoringSSL.
   */
  lemma OpensslRegistration(rs: Registry, isBoringSsl: bool, getMap: string -> MapLookup)
    requires getMap(TlsEventsMap).Found? && getMap(ConnectEventsMap).Found? && getMap(MasterSecretEventsMap).Found?
    requires var a, b, c := getMap(TlsEventsMap).handle, getMap(ConnectEventsMap).handle, getMap(MasterSecretEventsMap).handle;
      a != b && b != c && a != c
    ensures var (rs', err) := RegisterAll(rs, OpensslChannels(isBoringSsl), getMap);
      var a, b, c := getMap(TlsEventsMap).handle, getMap(ConnectEventsMap).handle, getMap(MasterSecretEventsMap).handle;
      && err == None
      && rs'.eventMaps == rs.eventMaps + [a, b, c]
      && Lookup(rs', a) == Some(SslDataDecoder)
      && Lookup(rs', b) == Some(ConnDataDecoder)
      && (Lookup(rs', c) == Some(MasterSecretBsslDecoder) <==> isBoringSsl)
      && (Lookup(rs', c) == Some(MasterSecretDecoder) <==> !isBoringSsl)
  {
    var chs := OpensslChannels(isBoringSsl);
    var hs := FoundHandles(chs, getMap);
    assert hs == [getMap(TlsEventsMap).handle, getMap(ConnectEventsMap).handle, getMap(MasterSecretEventsMap).handle] by {
      assert chs[1..][1..][1..] == [];
    }
    RegisterAllEffect(rs, chs, getMap);
    RegisterAllDecoders(rs, chs, getMap);
  }

  class OpenSslProbe {
    /** HKDF-Expand-Label as provided by the hkdf package. */
    const expand: Expander
    const registry: DecoderRegistry
    var conf: OpensslConfig
    var masterKeys: set<string>
    var keylog: seq<string>
    var sinkKeyLog: seq<string>
    var programType: ProgramType
    var pcapngFilename: string
    var sslVersionBpfMap: map<string, string>
    var sslBpfFile: string
    var isBoringSsl: bool
    var masterHookFunc: string
    var manager: Option<Manager>
    var options: Options

    /** The secret store's state. */
    function State(): Store
      reads this
    {
      Store(masterKeys, keylog, sinkKeyLog)
    }

    /** The store keeps one entry per session and mirrors the key-log in TC mode. */
    predicate Valid()
      reads this
    {
      Dedup(State()) && Mirrored(State(), programType)
    }

    /** A probe object with Go's zero values. */
    constructor(expand: Expander, conf: OpensslConfig)
      ensures this.expand == expand && this.conf == conf
      ensures fresh(registry) && registry.Contents() == Registry([], map[])
      ensures State() == Store({}, [], []) && programType == OpensslTc
      ensures sslBpfFile == "" && !isBoringSsl && masterHookFunc == ""
      ensures manager == None && options == NoOptions
    {
      this.expand := expand;
      registry := new DecoderRegistry();
      this.conf := conf;
      masterKeys, keylog, sinkKeyLog := {}, [], [];
      programType := OpensslTc;
      pcapngFilename := "";
      sslVersionBpfMap := map[];
      sslBpfFile, isBoringSsl, masterHookFunc := "", false, "";
      manager, options := None, NoOptions;
    }

    /**
     * `Init`: empties the registry, the seen set and the version table, opens
     * the key-log, picks TC mode iff `Write` is non-empty (taking its absolute
     * path), reads the clock, and finally loads the version table. Each
     * failing step returns its error and leaves the later steps undone.
     */
    method Init(conf: OpensslConfig, keylogOpens: bool, abs: string -> Option<string>, clockOk: bool,
                versionTable: map<string, string>) returns (err: Option<ProbeError>)
      modifies this`conf, this`masterKeys, this`keylog, this`sinkKeyLog, this`programType, this`pcapngFilename
      modifies this`sslVersionBpfMap, registry
      ensures this.conf == conf && registry.Contents() == Registry([], map[]) && masterKeys == {}
      ensures !keylogOpens ==>
        err == Some(KeylogOpenFailed) && sslVersionBpfMap == map[] && programType == old(programType)
      ensures keylogOpens ==> keylog == [] && programType == ModeFor(conf.write)
      ensures keylogOpens && programType == OpensslTc && abs(conf.write).None? ==>
        err == Some(AbsFailed) && sslVersionBpfMap == map[]
      ensures keylogOpens && programType == OpensslTc && abs(conf.write).Some? ==>
        pcapngFilename == abs(conf.write).value
      ensures keylogOpens && (programType == OpensslUprobe || abs(conf.write).Some?) ==>
        if clockOk then err == None && sinkKeyLog == [] && sslVersionBpfMap == versionTable
        else err == Some(ClockFailed) && sslVersionBpfMap == map[]
      ensures err == None ==> Valid()
    {
      this.conf := conf;
      registry.Reset();
      masterKeys := {};
      sslVersionBpfMap := map[];
      if !keylogOpens {
        return Some(KeylogOpenFailed);
      }
      keylog := [];
      err := SelectMode(conf.write, abs);
      if err.Some? {
        return;
      }
      if !clockOk {
        return Some(ClockFailed);
      }
      sinkKeyLog := [];
      sslVersionBpfMap := versionTable;
      EmptyStoreInvariants(programType);
      return None;
    }

    /** The mode choice in `Init`: TC mode, with the capture file's absolute path, iff `Write` is non-empty. */
    method SelectMode(write: string, abs: string -> Option<string>) returns (err: Option<ProbeError>)
      modifies this`programType, this`pcapngFilename
      ensures programType == ModeFor(write)
      ensures programType == OpensslTc && abs(write).None? ==> err == Some(AbsFailed)
      ensures programType == OpensslTc && abs(write).Some? ==> err == None && pcapngFilename == abs(write).value
      ensures programType == OpensslUprobe ==> err == None
    {
      if |write| > 0 {
        programType := OpensslTc;
        var path := abs(write);
        if path.None? {
          return Some(AbsFailed);
        }
        pcapngFilename := path.value;
      } else {
        programType := OpensslUprobe;
      }
      return None;
    }

    /**
     * `getSslBpfFile`: the file from the version table or from detection;
     * then, on every path (the deferred block), the hook follows the file's
     * flavour and a BoringSSL file sets `isBoringSsl`, which is never reset.
     */
    method GetSslBpfFile(soPath: string, sslVersion: string, detect: string -> Option<string>) returns (err: Option<ProbeError>)
      modifies this`sslBpfFile, this`isBoringSsl, this`masterHookFunc
      ensures (sslBpfFile, err) == ResolveBpfFile(sslVersionBpfMap, sslVersion, soPath, detect, old(sslBpfFile))
      ensures isBoringSsl == (old(isBoringSsl) || Contains(sslBpfFile, BoringSslMarker))
      ensures masterHookFunc == HookFuncFor(sslBpfFile)
    {
      err := None;
      if sslVersion != "" && sslVersion in sslVersionBpfMap {
        sslBpfFile := sslVersionBpfMap[sslVersion];
      } else {
        var found := detect(soPath);
        if found.Some? {
          sslBpfFile := found.value;
        } else {
          err := Some(DetectFailed);
        }
      }
      if Contains(sslBpfFile, BoringSslMarker) {
        isBoringSsl := true;
        masterHookFunc := MasterKeyHookFuncBoringSsl;
      } else {
        masterHookFunc := MasterKeyHookFuncOpenSsl;
      }
    }

    /**
     * `setupManagersUprobe`: chooses the path by ElfType (resolving the
     * flavour for a library, not for a binary), requires the path to exist,
     * then installs the plan and the options.
     */
    method SetupManagersUprobe(detect: string -> Option<string>, pathExists: string -> bool) returns (err: Option<ProbeError>)
      modifies this`manager, this`options, this`sslBpfFile, this`isBoringSsl, this`masterHookFunc
      ensures var path := UprobeBinaryPath(conf);
        && (conf.elfType == ElfBin ==>
              sslBpfFile == old(sslBpfFile) && isBoringSsl == old(isBoringSsl) && masterHookFunc == old(masterHookFunc)
              && err == (if pathExists(path) then None else Some(StatFailed(path))))
        && (conf.elfType != ElfBin ==>
              var (file, resolveErr) := ResolveBpfFile(sslVersionBpfMap, ToLower(conf.sslVersion), path, detect, old(sslBpfFile));
              && sslBpfFile == file
              && isBoringSsl == (old(isBoringSsl) || Contains(file, BoringSslMarker))
              && masterHookFunc == HookFuncFor(file)
              && err == (if resolveErr.Some? then resolveErr else if pathExists(path) then None else Some(StatFailed(path))))
        && (err == None ==>
              manager == Some(UprobePlan(path, masterHookFunc))
              && options == PlanOptions(OpensslEditors(conf), conf.enableGlobalVar))
        && (err != None ==> manager == old(manager) && options == old(options))
    {
      var sslVersion := ToLower(conf.sslVersion);
      var binaryPath := UprobeBinaryPath(conf);
      if conf.elfType != ElfBin {
        err := GetSslBpfFile(binaryPath, sslVersion, detect);
        if err.Some? {
          return;
        }
      }
      if !pathExists(binaryPath) {
        return Some(StatFailed(binaryPath));
      }
      manager := Some(UprobePlan(binaryPath, masterHookFunc));
      options := Options(512, 2097152, MaxUint64, MaxUint64, []);
      if conf.enableGlobalVar {
        options := options.(constantEditors := OpensslEditors(conf));
      }
      return None;
    }

    /** `initDecodeFun`: the three channels in order, stopping at the first failed lookup. */
    method InitDecodeFun(getMap: string -> MapLookup) returns (err: Option<ProbeError>)
      modifies registry
      ensures (registry.Contents(), err) == RegisterAll(old(registry.Contents()), OpensslChannels(isBoringSsl), getMap)
    {
      var chs := OpensslChannels(isBoringSsl);
      ghost var g := getMap;
      assert chs[1..][1..][1..] == [];
      err := registry.RegisterChannel(TlsEventsMap, SslDataDecoder, getMap);
      if err.Some? {
        return;
      }
      ghost var rs1 := registry.Contents();
      assert RegisterAll(old(registry.Contents()), chs, g) == RegisterAll(rs1, chs[1..], g);
      err := registry.RegisterChannel(ConnectEventsMap, ConnDataDecoder, getMap);
      if err.Some? {
        return;
      }
      ghost var rs2 := registry.Contents();
      assert RegisterAll(rs1, chs[1..], g) == RegisterAll(rs2, chs[1..][1..], g);
      var masterkeyDecoder := if isBoringSsl then MasterSecretBsslDecoder else MasterSecretDecoder;
      err := registry.RegisterChannel(MasterSecretEventsMap, masterkeyDecoder, getMap);
      if err.None? {
        assert RegisterAll(rs2, chs[1..][1..], g) == RegisterAll(registry.Contents(), [], g);
      }
    }

    /** One `WriteString` of the whole buffer to the key-log; in TC mode the same bytes to the sink. */
    method PersistBuffer(b: string, io: Io) returns (outcome: Outcome)
      modifies this`keylog, this`sinkKeyLog
      ensures (State(), outcome) == Persist(old(State()), programType, b, io)
    {
      if io.keylogWriteFails {
        return KeylogWriteFailed;
      }
      keylog := keylog + [b];
      if programType == OpensslTc {
        if io.sinkWriteFails {
          return SinkWriteFailed;
        }
        sinkKeyLog := sinkKeyLog + [b];
      }
      return Written;
    }

    /** `saveMasterSecret`: builds the buffer line by line, then persists it. */
    method SaveMasterSecret(e: MasterSecretEvent, io: Io) returns (outcome: Outcome)
      modifies this`masterKeys, this`keylog, this`sinkKeyLog
      ensures (State(), outcome) == SaveOpenSsl(old(State()), programType, expand, e, io)
    {
      var k := SessionKey(e.clientRandom);
      if k in masterKeys {
        return Duplicate;
      }
      masterKeys := masterKeys + {k};
      var b: string;
      if e.version == Tls13Version {
        var suite := e.cipherId % 0x1_0000;
        var length: nat;
        var transcript: HashAlg;
        if suite == TlsAes128GcmSha256 || suite == TlsChacha20Poly1305Sha256 {
          length, transcript := 32, Sha256;
        } else if suite == TlsAes256GcmSha384 {
          length, transcript := 48, Sha384;
        } else {
          return UnknownCipher;
        }
        b := Tls13Buffer(e, expand, length, transcript);
      } else {
        var line := Line(LabelTls12, e.clientRandom, e.masterKey);
        b := Format(line);
        assert b == Render([line]);
      }
      outcome := PersistBuffer(b, io);
    }

    /** `saveMasterSecretBSSL`: dedup, the version's null guard, then the key is marked and the buffer persisted. */
    method SaveMasterSecretBssl(e: MasterSecretBsslEvent, io: Io) returns (outcome: Outcome)
      modifies this`masterKeys, this`keylog, this`sinkKeyLog
      ensures (State(), outcome) == SaveBssl(old(State()), programType, e, io)
    {
      var k := SessionKey(e.clientRandom);
      if k in masterKeys {
        return Duplicate;
      }
      var n := e.hashLen;
      var b: string;
      if e.version == Tls12Version {
        if n > MasterSecretMaxLen {
          // The guard or the slice indexes past the 48-byte buffer: a run-time panic.
          return Panicked;
        }
        var isNull := BsslEvent12NullSecrets(e);
        if isNull {
          return NullSecrets;
        }
        var line := Line(LabelTls12, e.clientRandom, e.secret[..n]);
        b := Format(line);
        assert b == Render([line]);
        masterKeys := masterKeys + {k};
      } else {
        if n > EvpMaxMdSize {
          // The guard indexes past the 64-byte buffers unless all five were found
          // non-zero below that width; then the key is marked and the slice panics.
          if !SomeNullSecret13(e, EvpMaxMdSize) {
            masterKeys := masterKeys + {k};
          }
          return Panicked;
        }
        var isNull := BsslEvent13NullSecrets(e);
        if isNull {
          return NullSecrets;
        }
        masterKeys := masterKeys + {k};
        b := Bssl13Buffer(e);
      }
      outcome := PersistBuffer(b, io);
    }

    /**
     * `Dispatcher`: routes each event variant; a capture-sink error for a
     * packet is only logged. Handling an event never breaks the store's
     * invariants unless it stops the process.
     */
    method Dispatcher(ev: Event, io: Io) returns (outcome: Outcome)
      modifies this`masterKeys, this`keylog, this`sinkKeyLog
      ensures (State(), outcome) == Dispatch(old(State()), programType, expand, ev, io)
      ensures old(Valid()) ==> Dedup(State())
      ensures old(Valid()) && !Fatal(outcome) ==> Valid()
    {
      ghost var before := State();
      match ev {
        case MasterSecret(e) =>
          outcome := SaveMasterSecret(e, io);
        case MasterSecretBssl(e) =>
          outcome := SaveMasterSecretBssl(e, io);
        case TcSkbEvent(_) =>
          outcome := if io.skbDumpFails then SkbDumpFailed else SkbDumped;
        case _ =>
          outcome := Ignored;
      }
      if Dedup(before) {
        DispatchKeepsDedup(before, programType, expand, ev, io);
      }
      if Mirrored(before, programType) {
        DispatchKeepsMirror(before, programType, expand, ev, io);
      }
    }
  }

  /** `WriteString` of one more line onto the buffer. */
  method AppendLine(b: string, ghost lines: seq<Line>, l: Line) returns (b': string)
    requires b == Render(lines)
    ensures b' == Render(lines + [l])
  {
    b' := b + Format(l);
    RenderSnoc(lines, l);
  }

  /** The TLS 1.3 buffer of `saveMasterSecret` for a recognised suite, written line by line. */
  method Tls13Buffer(e: MasterSecretEvent, expand: Expander, length: nat, transcript: HashAlg) returns (b: string)
    requires e.version == Tls13Version && CipherSuite(e.cipherId) == Some(Suite(length, transcript))
    ensures OpenSslLines(e, expand).Some? && b == Render(OpenSslLines(e, expand).value)
  {
    var cr := e.clientRandom;
    var hs, th := e.handshakeSecret[..length], e.handshakeTrafficHash[..length];
    var clientHandshakeSecret := expand(hs, ClientHandshakeTrafficLabel, th, length, transcript);
    var first := Line(LabelClientHandshake, cr, clientHandshakeSecret);
    ghost var lines := [first];
    b := Format(first);
    assert b == Render(lines);
    var serverHandshakeSecret := expand(hs, ServerHandshakeTrafficLabel, th, length, transcript);
    b := AppendLine(b, lines, Line(LabelServerHandshake, cr, serverHandshakeSecret));
    lines := lines + [Line(LabelServerHandshake, cr, serverHandshakeSecret)];
    b := AppendLine(b, lines, Line(LabelClientTraffic, cr, e.clientAppTrafficSecret));
    lines := lines + [Line(LabelClientTraffic, cr, e.clientAppTrafficSecret)];
    b := AppendLine(b, lines, Line(LabelServerTraffic, cr, e.serverAppTrafficSecret));
    lines := lines + [Line(LabelServerTraffic, cr, e.serverAppTrafficSecret)];
    b := AppendLine(b, lines, Line(LabelExporterSecret, cr, e.exporterMasterSecret[..length]));
    lines := lines + [Line(LabelExporterSecret, cr, e.exporterMasterSecret[..length])];
    assert lines == [first, Line(LabelServerHandshake, cr, serverHandshakeSecret),
                     Line(LabelClientTraffic, cr, e.clientAppTrafficSecret),
                     Line(LabelServerTraffic, cr, e.serverAppTrafficSecret),
                     Line(LabelExporterSecret, cr, e.exporterMasterSecret[..length])];
    assert OpenSslLines(e, expand) == Some(lines);
  }

  /** The five-line buffer of `saveMasterSecretBSSL` for an event that is not TLS 1.2, written line by line. */
  method Bssl13Buffer(e: MasterSecretBsslEvent) returns (b: string)
    requires e.version != Tls12Version && e.hashLen <= EvpMaxMdSize
    ensures b == Render(BsslLines(e))
  {
    var cr, n := e.clientRandom, e.hashLen;
    var first := Line(LabelClientHandshake, cr, e.clientHandshakeSecret[..n]);
    ghost var lines := [first];
    b := Format(first);
    assert b == Render(lines);
    b := AppendLine(b, lines, Line(LabelClientTraffic, cr, e.clientTrafficSecret0[..n]));
    lines := lines + [Line(LabelClientTraffic, cr, e.clientTrafficSecret0[..n])];
    b := AppendLine(b, lines, Line(LabelServerHandshake, cr, e.serverHandshakeSecret[..n]));
    lines := lines + [Line(LabelServerHandshake, cr, e.serverHandshakeSecret[..n])];
    b := AppendLine(b, lines, Line(LabelServerTraffic, cr, e.serverTrafficSecret0[..n]));
    lines := lines + [Line(LabelServerTraffic, cr, e.serverTrafficSecret0[..n])];
    b := AppendLine(b, lines, Line(LabelExporterSecret, cr, e.exporterSecret[..n]));
    lines := lines + [Line(LabelExporterSecret, cr, e.exporterSecret[..n])];
    assert BsslLines(e) == lines;
  }
}
