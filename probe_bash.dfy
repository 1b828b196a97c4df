/**
 * The bash probe: hooks the return of `readline` and `execute_command` in
 * bash or libreadline, with one event channel. `BashPath`, `BashPlan`,
 * `BashEditors` and `BashChannels` are the values `setupManagers`,
 * `constantEditor` and `initDecodeFun` in user/module/probe_bash.go build;
 * `BashProbe` is the probe object with its setup steps.
 */
module ProbeBash {
  import opened Wrappers
  import opened Bytes
  import opened Ebpf
  import opened Registry

  /** The configuration fields the probe reads. */
  datatype BashConfig = BashConfig(
    pid: int,
    uid: int,
    errNo: int,
    elfType: ElfType,
    bashpath: string,
    readline: string,
    enableGlobalVar: bool)

  const DefaultBashPath := "/bin/bash"
  const BashEventsMap := "events"

  /** The object to hook: the bash binary, the readline library, or `/bin/bash`. No existence check is made. */
  function BashPath(conf: BashConfig): (p: string)
    ensures conf.elfType == ElfBin ==> p == conf.bashpath
    ensures conf.elfType == ElfSo ==> p == conf.readline
    ensures conf.elfType == ElfUnset ==> p == DefaultBashPath
  {
    match conf.elfType
    case ElfBin => conf.bashpath
    case ElfSo => conf.readline
    case ElfUnset => DefaultBashPath
  }

  function BashPlan(path: string): (m: Manager)
    ensures |m.probes| == 2 && |m.maps| == 1
    ensures forall i :: 0 <= i < |m.probes| ==> m.probes[i].binaryPath == path
  {
    Manager(
      [ Probe("uretprobe/bash_readline", "uretprobe_bash_readline", "readline", path, ""),
        Probe("uretprobe/bash_retval", "uretprobe_bash_retval", "execute_command", path, "") ],
      [BashEventsMap])
  }

  /** Exactly two return probes, for `readline` and `execute_command`, both on the chosen path, and one map. */
  lemma BashPlanShape(path: string)
    ensures var m := BashPlan(path);
      && |m.probes| == 2
      && (forall p :: p in m.probes ==> p.binaryPath == path && p.uid == "")
      && m.probes[0].attachToFuncName == "readline" && m.probes[0].ebpfFuncName == "uretprobe_bash_readline"
      && m.probes[1].attachToFuncName == "execute_command" && m.probes[1].ebpfFuncName == "uretprobe_bash_retval"
      && ProbeSections(m.probes) == ["uretprobe/bash_readline", "uretprobe/bash_retval"]
      && m.maps == [BashEventsMap]
  {
  }

  /** `constantEditor`: the target pid, uid and errno, each as `uint64`. */
  function BashEditors(conf: BashConfig): (es: seq<ConstantEditor>)
    ensures EditorNames(es) == ["target_pid", "target_uid", "target_errno"]
    ensures |es| == 3 && es[0].value == Uint64(conf.pid) && es[1].value == Uint64(conf.uid) && es[2].value == Uint64(conf.errNo)
  {
    [Editor("target_pid", conf.pid), Editor("target_uid", conf.uid), Editor("target_errno", conf.errNo)]
  }

  /** The single channel `initDecodeFun` registers. */
  function BashChannels(): (chs: seq<(string, Decoder)>)
    ensures |chs| == 1 && chs[0].1 == BashDecoder
  {
    [(BashEventsMap, BashDecoder)]
  }

  /** The decoder registry covers exactly the maps the plan declares. */
  lemma BashChannelsMatchPlan(path: string)
    ensures |BashChannels()| == |BashPlan(path).maps|
    ensures forall i :: 0 <= i < |BashChannels()| ==> BashChannels()[i].0 == BashPlan(path).maps[i]
  {
  }

  /**
   * `initDecodeFun`: when `events` is found the registry grows by exactly
   * that handle, which then decodes with the bash decoder, and a handle that
   * was never registered still has none; otherwise the error comes back and
   * the registry is unchanged.
   */
  lemma BashRegistration(rs: Registry, getMap: string -> MapLookup)
    ensures var (rs', err) := RegisterAll(rs, BashChannels(), getMap);
      var l := getMap(BashEventsMap);
      if l.Found? then
        && err == None
        && rs'.eventMaps == rs.eventMaps + [l.handle]
        && Lookup(rs', l.handle) == Some(BashDecoder)
        && (forall h :: h != l.handle ==> Lookup(rs', h) == Lookup(rs, h))
      else
        && rs' == rs
        && err == Some(LookupError(BashEventsMap, l))
  {
    var l := getMap(BashEventsMap);
    if l.Found? {
      assert BashChannels()[1..] == [];
    }
  }

  /** The results of the steps of `start` that the model does not perform. */
  datatype StartEnv = StartEnv(assetFound: bool, initFails: bool, startFails: bool, getMap: string -> MapLookup)

  class BashProbe {
    const registry: DecoderRegistry
    var conf: BashConfig
    var manager: Option<Manager>
    var options: Options

    constructor(conf: BashConfig)
      ensures fresh(registry) && registry.Contents() == Registry([], map[])
      ensures this.conf == conf && manager == None && options == NoOptions
    {
      registry := new DecoderRegistry();
      this.conf := conf;
      manager := None;
      options := NoOptions;
    }

    /** `Init`: takes the configuration and empties the registry. */
    method Init(conf: BashConfig)
      modifies this, registry
      ensures this.conf == conf && registry.Contents() == Registry([], map[])
      ensures manager == old(manager) && options == old(options)
    {
      this.conf := conf;
      registry.Reset();
    }

    /** `setupManagers`: the plan on the configured path, and the options with editors only under `EnableGlobalVar`. */
    method SetupManagers()
      modifies this`manager, this`options
      ensures manager == Some(BashPlan(BashPath(conf)))
      ensures options == PlanOptions(BashEditors(conf), conf.enableGlobalVar)
    {
      var binaryPath: string;
      if conf.elfType == ElfBin {
        binaryPath := conf.bashpath;
      } else if conf.elfType == ElfSo {
        binaryPath := conf.readline;
      } else {
        binaryPath := DefaultBashPath;
      }
      manager := Some(BashPlan(binaryPath));
      options := Options(512, 2097152, MaxUint64, MaxUint64, []);
      if conf.enableGlobalVar {
        options := options.(constantEditors := BashEditors(conf));
      }
    }

    /** `initDecodeFun`. */
    method InitDecodeFun(getMap: string -> MapLookup) returns (err: Option<ProbeError>)
      modifies registry
      ensures (registry.Contents(), err) == RegisterAll(old(registry.Contents()), BashChannels(), getMap)
    {
      err := registry.RegisterChannel(BashEventsMap, BashDecoder, getMap);
      assert BashChannels()[1..] == [];
    }

    /**
     * `start`: the bytecode asset is fetched before any plan is built; then
     * the plan, the manager's initialisation, its start, and the decoder
     * registration, each failure returned in that order.
     */
    method Start(env: StartEnv) returns (err: Option<ProbeError>)
      modifies this`manager, this`options, registry
      ensures !env.assetFound ==>
        err == Some(AssetNotFound) && manager == old(manager) && options == old(options)
        && registry.Contents() == old(registry.Contents())
      ensures env.assetFound ==>
        manager == Some(BashPlan(BashPath(conf))) && options == PlanOptions(BashEditors(conf), conf.enableGlobalVar)
      ensures env.assetFound && env.initFails ==>
        err == Some(InitFailed) && registry.Contents() == old(registry.Contents())
      ensures env.assetFound && !env.initFails && env.startFails ==>
        err == Some(StartFailed) && registry.Contents() == old(registry.Contents())
      ensures env.assetFound && !env.initFails && !env.startFails ==>
        (registry.Contents(), err) == RegisterAll(old(registry.Contents()), BashChannels(), env.getMap)
    {
      if !env.assetFound {
        return Some(AssetNotFound);
      }
      SetupManagers();
      if env.initFails {
        return Some(InitFailed);
      }
      if env.startFails {
        return Some(StartFailed);
      }
      err := InitDecodeFun(env.getMap);
    }
  }
}
