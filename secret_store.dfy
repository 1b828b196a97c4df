/**
 * The TLS probe's secret store as a state machine: the set of hex client
 * randoms already handled (`masterKeys`), the key-log file (one element per
 * `WriteString`), and the capture sink's session-key channel, which only TC
 * mode feeds. `SaveOpenSsl`, `SaveBssl` and `Dispatch` are the transitions
 * that `saveMasterSecret`, `saveMasterSecretBSSL` and `Dispatcher` in
 * user/module/probe_openssl.go perform.
 */
module SecretStore {
  import opened Wrappers
  import opened Bytes
  import opened KeyLog
  import opened KeySchedule

  /** EBPFPROGRAMTYPE: TC mode (the zero value) or uprobe mode. */
  datatype ProgramType = OpensslTc | OpensslUprobe

  /** Results of the store's I/O for one event, given rather than computed. */
  datatype Io = Io(keylogWriteFails: bool, sinkWriteFails: bool, skbDumpFails: bool)

  /**
   * What handling one event amounted to. KeylogWriteFailed and SinkWriteFailed
   * are the `Fatalf` exits; Panicked is Go's run-time panic on a `hashLen`
   * beyond the buffer width.
   */
  datatype Outcome =
    | Ignored
    | Duplicate
    | UnknownCipher
    | NullSecrets
    | Written
    | KeylogWriteFailed
    | SinkWriteFailed
    | Panicked
    | SkbDumped
    | SkbDumpFailed

  /** Outcomes after which the process has stopped. */
  predicate Fatal(o: Outcome) {
    o.KeylogWriteFailed? || o.SinkWriteFailed? || o.Panicked?
  }

  datatype Store = Store(masterKeys: set<string>, keylog: seq<string>, sinkKeyLog: seq<string>)

  /** The decoded event variants the dispatcher can receive. */
  datatype Event =
    | ConnDataEvent
    | SslDataEvent
    | MasterSecret(ms: MasterSecretEvent)
    | MasterSecretBssl(bs: MasterSecretBsslEvent)
    | TcSkbEvent(frame: seq<byte>)
    | OtherEvent

  predicate IsMasterSecret(ev: Event) {
    ev.MasterSecret? || ev.MasterSecretBssl?
  }

  function ClientRandomOf(ev: Event): seq<byte>
    requires IsMasterSecret(ev)
  {
    if ev.MasterSecret? then ev.ms.clientRandom else ev.bs.clientRandom
  }

  /** The dedup key: `fmt.Sprintf("%02x", ClientRandom)`. */
  function SessionKey(cr: seq<byte>): string {
    Hex(cr)
  }

  /** One write of the whole buffer to the key-log, then in TC mode the same bytes to the sink. */
  function Persist(st: Store, mode: ProgramType, buffer: string, io: Io): (r: (Store, Outcome))
    ensures r.0.masterKeys == st.masterKeys
    ensures r.1 == KeylogWriteFailed || r.1 == SinkWriteFailed || r.1 == Written
    ensures r.1 == KeylogWriteFailed <==> io.keylogWriteFails
    ensures mode == OpensslUprobe ==> r.0.sinkKeyLog == st.sinkKeyLog
  {
    if io.keylogWriteFails then (st, KeylogWriteFailed)
    else
      var logged := st.(keylog := st.keylog + [buffer]);
      if mode == OpensslTc then
        if io.sinkWriteFails then (logged, SinkWriteFailed)
        else (logged.(sinkKeyLog := st.sinkKeyLog + [buffer]), Written)
      else
        (logged, Written)
  }

  /** `saveMasterSecret`: the client random is marked as seen before the cipher suite is looked at. */
  function SaveOpenSsl(st: Store, mode: ProgramType, expand: Expander, e: MasterSecretEvent, io: Io): (r: (Store, Outcome))
    ensures r.1 == Duplicate <==> SessionKey(e.clientRandom) in st.masterKeys
    ensures r.1 != Duplicate ==> r.0.masterKeys == st.masterKeys + {SessionKey(e.clientRandom)}
    ensures r.1 == UnknownCipher ==> r.0.keylog == st.keylog && r.0.sinkKeyLog == st.sinkKeyLog
    ensures r.1 !in {NullSecrets, Panicked, Ignored, SkbDumped, SkbDumpFailed}
  {
    var k := SessionKey(e.clientRandom);
    if k in st.masterKeys then (st, Duplicate)
    else
      var marked := st.(masterKeys := st.masterKeys + {k});
      match OpenSslLines(e, expand)
      case None => (marked, UnknownCipher)
      case Some(ls) => Persist(marked, mode, Render(ls), io)
  }

  /**
   * `saveMasterSecretBSSL`: the client random is marked only once the null
   * guard has passed. A `hashLen` past the buffers makes the source index or
   * slice out of range; in the TLS 1.3 branch that happens after the key was
   * marked when every buffer has a non-zero byte within its width.
   */
  function SaveBssl(st: Store, mode: ProgramType, e: MasterSecretBsslEvent, io: Io): (r: (Store, Outcome))
    ensures r.1 == Duplicate <==> SessionKey(e.clientRandom) in st.masterKeys
    ensures r.1 == Panicked <==> SessionKey(e.clientRandom) !in st.masterKeys && e.hashLen > BsslWidth(e.version)
    ensures r.0.masterKeys == st.masterKeys || r.0.masterKeys == st.masterKeys + {SessionKey(e.clientRandom)}
    ensures r.1 == NullSecrets || r.1 == Panicked ==> r.0.keylog == st.keylog && r.0.sinkKeyLog == st.sinkKeyLog
    ensures r.1 !in {UnknownCipher, Ignored, SkbDumped, SkbDumpFailed}
  {
    var k := SessionKey(e.clientRandom);
    var marked := st.(masterKeys := st.masterKeys + {k});
    if k in st.masterKeys then (st, Duplicate)
    else if e.hashLen > BsslWidth(e.version) then
      if e.version != Tls12Version && !SomeNullSecret13(e, EvpMaxMdSize) then (marked, Panicked)
      else (st, Panicked)
    else if !BsslAccepted(e) then (st, NullSecrets)
    else Persist(marked, mode, Render(BsslLines(e)), io)
  }

  /** `Dispatcher`: routes by variant; connection and unknown events are no-ops. */
  function Dispatch(st: Store, mode: ProgramType, expand: Expander, ev: Event, io: Io): (r: (Store, Outcome))
    ensures st.masterKeys <= r.0.masterKeys
    ensures !IsMasterSecret(ev) ==> r.0 == st
    ensures ev.TcSkbEvent? ==> (r.1 == SkbDumpFailed <==> io.skbDumpFails)
    ensures r.1 == Ignored <==> ev.ConnDataEvent? || ev.SslDataEvent? || ev.OtherEvent?
  {
    match ev
    case MasterSecret(e) => SaveOpenSsl(st, mode, expand, e, io)
    case MasterSecretBssl(e) => SaveBssl(st, mode, e, io)
    case TcSkbEvent(_) => (st, if io.skbDumpFails then SkbDumpFailed else SkbDumped)
    case _ => (st, Ignored)
  }

  /** Events handled one after another until one of them stops the process. */
  function Run(st: Store, mode: ProgramType, expand: Expander, evs: seq<(Event, Io)>): (r: (Store, bool))
    ensures st.masterKeys <= r.0.masterKeys
    ensures evs == [] ==> r == (st, false)
    decreases |evs|
  {
    if evs == [] then (st, false)
    else
      var r := Dispatch(st, mode, expand, evs[0].0, evs[0].1);
      if Fatal(r.1) then (r.0, true) else Run(r.0, mode, expand, evs[1..])
  }

  /** The lines an event would contribute to the key-log if it were written. */
  function EventLines(ev: Event, expand: Expander): (r: Option<seq<Line>>)
    ensures r.Some? ==> IsMasterSecret(ev)
    ensures ev.MasterSecret? && ev.ms.version != Tls13Version ==> r.Some?
    ensures ev.MasterSecretBssl? ==> (r.Some? <==> ev.bs.hashLen <= BsslWidth(ev.bs.version))
    ensures r.Some? ==> forall i :: 0 <= i < |r.value| ==> r.value[i].clientRandom == ClientRandomOf(ev)
  {
    match ev
    case MasterSecret(e) => OpenSslLines(e, expand)
    case MasterSecretBssl(e) => if e.hashLen <= BsslWidth(e.version) then Some(BsslLines(e)) else None
    case _ => None
  }

  /**
   * Every key-log entry decodes to the lines of one session whose key is
   * marked, and no two entries belong to the same session.
   */
  predicate Dedup(st: Store) {
    && (forall i :: 0 <= i < |st.keylog| ==>
          SessionOf(st.keylog[i]).Some? && SessionKey(SessionOf(st.keylog[i]).value) in st.masterKeys)
    && (forall i, j :: 0 <= i < j < |st.keylog| ==> SessionOf(st.keylog[i]) != SessionOf(st.keylog[j]))
  }

  /** In TC mode the sink has received exactly the key-log's entries; in uprobe mode nothing. */
  predicate Mirrored(st: Store, mode: ProgramType) {
    if mode == OpensslTc then st.sinkKeyLog == st.keylog else st.sinkKeyLog == []
  }

  /** An event for a client random already marked changes nothing and writes nothing. */
  lemma SeenSessionIsNoOp(st: Store, mode: ProgramType, expand: Expander, ev: Event, io: Io)
    requires IsMasterSecret(ev) && SessionKey(ClientRandomOf(ev)) in st.masterKeys
    ensures Dispatch(st, mode, expand, ev, io) == (st, Duplicate)
  {
  }

  /** For an OpenSSL event not seen before, the key is marked whatever happens next. */
  lemma OpenSslMarksSessionFirst(st: Store, mode: ProgramType, expand: Expander, e: MasterSecretEvent, io: Io)
    requires SessionKey(e.clientRandom) !in st.masterKeys
    ensures SaveOpenSsl(st, mode, expand, e, io).0.masterKeys == st.masterKeys + {SessionKey(e.clientRandom)}
    ensures SaveOpenSsl(st, mode, expand, e, io).1 != Duplicate
  {
  }

  /**
   * An unknown TLS 1.3 cipher suite writes nothing to the key-log or the sink,
   * yet marks the session, so a later event with the same client random is
   * dropped as a duplicate, whatever its shape.
   */
  lemma UnknownCipherSuppressesSession(st: Store, mode: ProgramType, expand: Expander,
                                       e: MasterSecretEvent, io: Io, later: Event, io': Io)
    requires e.version == Tls13Version && CipherSuite(e.cipherId).None?
    requires SessionKey(e.clientRandom) !in st.masterKeys
    requires IsMasterSecret(later) && ClientRandomOf(later) == e.clientRandom
    ensures var r := Dispatch(st, mode, expand, MasterSecret(e), io);
      && r == (st.(masterKeys := st.masterKeys + {SessionKey(e.clientRandom)}), UnknownCipher)
      && Dispatch(r.0, mode, expand, later, io') == (r.0, Duplicate)
  {
    OpenSslTls13Lines(e, expand);
  }

  /** A BoringSSL event that fails its null guard is dropped without marking its session. */
  lemma BsslNullGuard(st: Store, mode: ProgramType, e: MasterSecretBsslEvent, io: Io)
    requires SessionKey(e.clientRandom) !in st.masterKeys
    requires e.hashLen <= BsslWidth(e.version)
    ensures SaveBssl(st, mode, e, io).1 == NullSecrets <==> !BsslAccepted(e)
    ensures !BsslAccepted(e) ==> SaveBssl(st, mode, e, io).0 == st
    ensures BsslAccepted(e) ==> SaveBssl(st, mode, e, io).0.masterKeys == st.masterKeys + {SessionKey(e.clientRandom)}
    ensures BsslAccepted(e) && !io.keylogWriteFails ==>
      SaveBssl(st, mode, e, io).0.keylog == st.keylog + [Render(BsslLines(e))]
  {
  }

  /** Handling the same event twice: the second time changes nothing. */
  lemma ReplayIsNoOp(st: Store, mode: ProgramType, expand: Expander, ev: Event, io: Io, io': Io)
    ensures var after := Dispatch(st, mode, expand, ev, io).0;
      Dispatch(after, mode, expand, ev, io').0 == after
  {
  }

  /**
   * One event appends at most one entry to the key-log: the whole rendered
   * buffer of its lines, and only when the outcome is Written or the sink
   * write failed after it. TC mode mirrors the same entry to the sink. The
   * set of marked sessions only grows.
   */
  lemma DispatchAppendsAtMostOnce(st: Store, mode: ProgramType, expand: Expander, ev: Event, io: Io)
    ensures var (st', o) := Dispatch(st, mode, expand, ev, io);
      && st.masterKeys <= st'.masterKeys
      && (if o == Written || o == SinkWriteFailed then
            EventLines(ev, expand).Some?
            && st'.keylog == st.keylog + [Render(EventLines(ev, expand).value)]
          else
            st'.keylog == st.keylog)
      && (if o == Written && mode == OpensslTc then st'.sinkKeyLog == st.sinkKeyLog + [Render(EventLines(ev, expand).value)]
          else st'.sinkKeyLog == st.sinkKeyLog)
  {
    match ev
    case MasterSecret(e) =>
    case MasterSecretBssl(e) =>
    case _ =>
  }

  /**
   * The converse: a master-secret event for a new session whose lines exist
   * (and, for BoringSSL, which passes its guard) is written, as exactly one
   * key-log entry that parses back to its lines, once the key-log write
   * succeeds; only a failing sink write in TC mode turns it fatal.
   */
  lemma AcceptedIsWritten(st: Store, mode: ProgramType, expand: Expander, ev: Event, io: Io)
    requires IsMasterSecret(ev) && SessionKey(ClientRandomOf(ev)) !in st.masterKeys
    requires EventLines(ev, expand).Some?
    requires ev.MasterSecretBssl? ==> ev.bs.hashLen <= BsslWidth(ev.bs.version) && BsslAccepted(ev.bs)
    requires !io.keylogWriteFails
    ensures var (st', o) := Dispatch(st, mode, expand, ev, io);
      && (o == Written || o == SinkWriteFailed)
      && (o == SinkWriteFailed <==> mode == OpensslTc && io.sinkWriteFails)
      && st'.keylog == st.keylog + [Render(EventLines(ev, expand).value)]
      && st'.masterKeys == st.masterKeys + {SessionKey(ClientRandomOf(ev))}
      && Parse(st'.keylog[|st.keylog|]) == EventLines(ev, expand)
  {
    var ls := EventLines(ev, expand).value;
    if ev.MasterSecret? {
      OpenSslLinesOneSession(ev.ms, expand);
    } else {
      BsslLinesShape(ev.bs);
    }
    ParseRender(ls);
  }

  /** A new entry, for a session not yet marked, keeps the dedup invariant once its key is marked. */
  lemma AppendKeepsDedup(st: Store, ls: seq<Line>, cr: seq<byte>, keys: set<string>, sink: seq<string>)
    requires Dedup(st) && OneSession(ls, cr)
    requires SessionKey(cr) !in st.masterKeys
    requires st.masterKeys + {SessionKey(cr)} <= keys
    ensures Dedup(Store(keys, st.keylog + [Render(ls)], sink))
  {
    SessionOfRender(ls);
    var log := st.keylog + [Render(ls)];
    forall i | 0 <= i < |st.keylog|
      ensures SessionOf(log[i]) != SessionOf(log[|st.keylog|])
    {
      assert log[i] == st.keylog[i];
    }
  }

  lemma {:induction false} DispatchKeepsDedup(st: Store, mode: ProgramType, expand: Expander, ev: Event, io: Io)
    requires Dedup(st)
    ensures Dedup(Dispatch(st, mode, expand, ev, io).0)
  {
    DispatchAppendsAtMostOnce(st, mode, expand, ev, io);
    var (st', o) := Dispatch(st, mode, expand, ev, io);
    if o == Written || o == SinkWriteFailed {
      var cr := ClientRandomOf(ev);
      var ls := EventLines(ev, expand).value;
      if ev.MasterSecret? {
        OpenSslLinesOneSession(ev.ms, expand);
      } else {
        BsslLinesShape(ev.bs);
      }
      AppendKeepsDedup(st, ls, cr, st'.masterKeys, st'.sinkKeyLog);
    } else {
      assert st'.keylog == st.keylog;
    }
  }

  /**
   * Over any sequence of events, interleaved in any order, the key-log never
   * holds two entries for the same client random.
   */
  lemma {:induction false} RunKeepsDedup(st: Store, mode: ProgramType, expand: Expander, evs: seq<(Event, Io)>)
    requires Dedup(st)
    ensures Dedup(Run(st, mode, expand, evs).0)
    decreases |evs|
  {
    if evs != [] {
      DispatchKeepsDedup(st, mode, expand, evs[0].0, evs[0].1);
      var r := Dispatch(st, mode, expand, evs[0].0, evs[0].1);
      if !Fatal(r.1) {
        RunKeepsDedup(r.0, mode, expand, evs[1..]);
      }
    }
  }

  /** A step that does not stop the process keeps the sink mirroring the key-log. */
  lemma DispatchKeepsMirror(st: Store, mode: ProgramType, expand: Expander, ev: Event, io: Io)
    requires Mirrored(st, mode)
    ensures var r := Dispatch(st, mode, expand, ev, io);
      !Fatal(r.1) ==> Mirrored(r.0, mode)
  {
    DispatchAppendsAtMostOnce(st, mode, expand, ev, io);
  }

  /** As long as the process has not stopped, the sink mirrors the key-log in TC mode. */
  lemma {:induction false} RunKeepsMirror(st: Store, mode: ProgramType, expand: Expander, evs: seq<(Event, Io)>)
    requires Mirrored(st, mode)
    ensures !Run(st, mode, expand, evs).1 ==> Mirrored(Run(st, mode, expand, evs).0, mode)
    decreases |evs|
  {
    if evs != [] {
      DispatchKeepsMirror(st, mode, expand, evs[0].0, evs[0].1);
      var r := Dispatch(st, mode, expand, evs[0].0, evs[0].1);
      if !Fatal(r.1) {
        RunKeepsMirror(r.0, mode, expand, evs[1..]);
      }
    }
  }

  /** The empty store satisfies both invariants. */
  lemma EmptyStoreInvariants(mode: ProgramType)
    ensures Dedup(Store({}, [], [])) && Mirrored(Store({}, [], []), mode)
  {
  }

  /**
   * A first TLS 1.3 event with a SHA-256 suite appends one entry holding
   * the five labelled lines for its client random, the derived and exporter
   * secrets 32 bytes long; the same event again appends nothing.
   */
  lemma Tls13SessionWrittenOnce(st: Store, mode: ProgramType, expand: Expander, e: MasterSecretEvent, io: Io, io': Io)
    requires e.version == Tls13Version
    requires e.cipherId % 0x1_0000 in {TlsAes128GcmSha256, TlsChacha20Poly1305Sha256}
    requires SessionKey(e.clientRandom) !in st.masterKeys
    requires !io.keylogWriteFails
    ensures var st' := Dispatch(st, mode, expand, MasterSecret(e), io).0;
      |st'.keylog| == |st.keylog| + 1 && Parse(st'.keylog[|st.keylog|]).Some?
    ensures var ls := Parse(Dispatch(st, mode, expand, MasterSecret(e), io).0.keylog[|st.keylog|]).value;
      && Tags(ls) == [LabelClientHandshake, LabelServerHandshake, LabelClientTraffic, LabelServerTraffic, LabelExporterSecret]
      && OneSession(ls, e.clientRandom)
      && |ls[0].secret| == |ls[1].secret| == |ls[4].secret| == 32
    ensures var st' := Dispatch(st, mode, expand, MasterSecret(e), io).0;
      Dispatch(st', mode, expand, MasterSecret(e), io') == (st', Duplicate)
  {
    OpenSslTls13Lines(e, expand);
    assert CipherSuite(e.cipherId).value.length == 32;
    var ls := OpenSslLines(e, expand).value;
    OpenSslLinesOneSession(e, expand);
    ParseRender(ls);
    DispatchAppendsAtMostOnce(st, mode, expand, MasterSecret(e), io);
    var st' := Dispatch(st, mode, expand, MasterSecret(e), io).0;
    assert st'.keylog[|st.keylog|] == Render(ls);
    assert SessionKey(e.clientRandom) in st'.masterKeys;
  }
}
