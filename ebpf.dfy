/**
 * The parts of the eBPF manager library the probes configure, as plain
 * values: hook records, the manager's probe and map lists, the constructor
 * options and the constant editors that patch globals in the bytecode.
 * Handles to kernel maps are opaque values; looking one up is an input.
 */
module Ebpf {
  import opened Bytes

  /** A hook record: program section, program name, hooked symbol, object file, optional identifier. */
  datatype Probe = Probe(section: string, ebpfFuncName: string, attachToFuncName: string, binaryPath: string, uid: string)

  /** A manager as built by a probe: its hooks and the names of the maps it reads events from. */
  datatype Manager = Manager(probes: seq<Probe>, maps: seq<string>)

  /** A global in the bytecode rewritten to `value` before loading. */
  datatype ConstantEditor = ConstantEditor(name: string, value: nat)

  /** The manager options both probes set. */
  datatype Options = Options(
    defaultKProbeMaxActive: nat,
    verifierLogSize: nat,
    rlimitCur: nat,
    rlimitMax: nat,
    constantEditors: seq<ConstantEditor>)

  const MaxUint64: nat := TwoTo64 - 1

  /** The Go zero value of the options, before any setup. */
  const NoOptions := Options(0, 0, 0, 0, [])

  /**
   * The options `setupManagers` and `setupManagersUprobe` build: 512 active
   * kretprobes, a 2 MiB verifier log, an unlimited memlock rlimit, and the
   * editors only when global variables are enabled.
   */
  function PlanOptions(editors: seq<ConstantEditor>, enableGlobalVar: bool): (o: Options)
    ensures o.defaultKProbeMaxActive == 512 && o.verifierLogSize == 2097152
    ensures o.rlimitCur == o.rlimitMax == MaxUint64
    ensures o.constantEditors == if enableGlobalVar then editors else []
  {
    Options(512, 2097152, MaxUint64, MaxUint64, if enableGlobalVar then editors else [])
  }

  /** An opaque handle to a loaded kernel map. */
  datatype MapHandle = MapHandle(id: nat)

  /** The answer of `GetMap(name)`: the map, its absence, or a lookup error. */
  datatype MapLookup = Found(handle: MapHandle) | NotFound | LookupFailed(msg: string)

  /** The event decoders a map can be registered with. */
  datatype Decoder = SslDataDecoder | ConnDataDecoder | MasterSecretDecoder | MasterSecretBsslDecoder | BashDecoder

  /** The object-file kind a configuration names; anything else is `ElfUnset`. */
  datatype ElfType = ElfBin | ElfSo | ElfUnset

  /** Every error a probe's setup can return. */
  datatype ProbeError =
    | KeylogOpenFailed
    | AbsFailed
    | ClockFailed
    | DetectFailed
    | StatFailed(path: string)
    | AssetNotFound
    | InitFailed
    | StartFailed
    | MapLookupError(msg: string)
    | MapNotFound(name: string)

  predicate IsUpper(c: char) {
    'A' <= c <= 'Z'
  }

  function LowerChar(c: char): (r: char)
    ensures !IsUpper(r)
    ensures IsUpper(c) ==> r as int == c as int + 32
    ensures !IsUpper(c) ==> r == c
  {
    if IsUpper(c) then (c as int + 32) as char else c
  }

  /** `strings.ToLower` restricted to ASCII letters. */
  function ToLower(s: string): (r: string)
    ensures |r| == |s|
    ensures forall i :: 0 <= i < |s| ==> r[i] == LowerChar(s[i])
  {
    if s == [] then "" else [LowerChar(s[0])] + ToLower(s[1..])
  }

  /** `strings.Contains`: `sub` is a prefix of some suffix of `s`. */
  predicate Contains(s: string, sub: string)
    ensures Contains(s, sub) ==> |sub| <= |s|
    ensures sub <= s ==> Contains(s, sub)
  {
    sub <= s || (s != [] && Contains(s[1..], sub))
  }

  /** An editor carrying `uint64(x)`: the value modulo 2^64. */
  function Editor(name: string, x: int): (e: ConstantEditor)
    ensures e.name == name && e.value < TwoTo64
    ensures 0 <= x < TwoTo64 ==> e.value == x
    ensures -TwoTo64 <= x < 0 ==> e.value == x + TwoTo64
  {
    ConstantEditor(name, Uint64(x))
  }

  function EditorNames(es: seq<ConstantEditor>): seq<string> {
    seq(|es|, i requires 0 <= i < |es| => es[i].name)
  }

  function ProbeSections(ps: seq<Probe>): seq<string> {
    seq(|ps|, i requires 0 <= i < |ps| => ps[i].section)
  }
}
