# ecapture TLS and bash probes: a Dafny model

This project models two probe modules of ecapture. ecapture is an eBPF tool that hooks user-space libraries to capture plaintext traffic.

The larger part is the **TLS probe** (`MOpenSSLProbe`). Each uprobe event carries the master secret of one TLS session from OpenSSL or BoringSSL. The probe turns these events into lines of an NSS `SSLKEYLOGFILE`:

`LABEL SP hex(client_random) SP hex(secret) LF`

Hex is lowercase with two digits per byte. Each session is written at most once; the set of hex client randoms already handled (`masterKeys`) is the dedup key. In TC mode, the same bytes are mirrored to the capture file's key channel. The probe also does the following:

- picks TC or uprobe mode at `Init`;
- resolves the bytecode flavour (OpenSSL or BoringSSL) and the master-key hook;
- builds the hook plan of five uprobes and three event maps;
- registers one decoder per event map.

The **bash probe** (`MBashProbe`) builds a plan of two return probes, on bash's `readline` and `execute_command`, plus one event map. It registers one decoder for that map and starts up in a fixed order of steps.

Modules:

- `Bytes` (bytes.dfy): byte and integer widths, Go's `uint64(x)` conversion, `%02x` hex encoding and its inverse.
- `KeyLog` (keylog.dfy): key-log lines, their rendering and a parser that recovers them.
- `KeySchedule` (key_schedule.dfy): the two event records, cipher-suite dispatch, the lines each event yields, and the two null-secret guards as loops.
- `SecretStore` (secret_store.dfy): the store transitions (`SaveOpenSsl`, `SaveBssl`, `Dispatch`, `Run`) with their invariants. These are dedup (the key-log never holds two entries for one session) and mirroring (the TC sink holds exactly the key-log's entries).
- `Ebpf` (ebpf.dfy): hook records, manager plans, options, constant editors, map lookups, decoders, `ToLower` and `Contains`.
- `Registry` (registry.dfy): the decoder registry (`eventMaps` plus `eventFuncMaps`) as a class, and `RegisterAll`, its specification.
- `ProbeOpenssl` (probe_openssl.dfy):
  - `OpenSslProbe` is a class with the source's fields. Its methods update `masterKeys`, the key-log and the sink in place. Each method is proved equal to the matching `SecretStore` transition.
  - The module also holds the pure plan functions.
- `ProbeBash` (probe_bash.dfy): `BashProbe` and its plan.

Values that come from outside the modelled code are parameters:

- HKDF-Expand-Label (`expand`, any function returning exactly `length` bytes);
- map lookups (`getMap`);
- library detection (`detect`);
- file existence (`pathExists`) and absolute-path resolution (`abs`);
- the version-to-bytecode table;
- whether the key-log opens, whether the clock can be read, and whether the asset, manager init and manager start succeed;
- whether each key-log, sink or packet write fails (`Io`).

## Model

| member | source | states |
|---|---|---|
| Bytes.Uint64 | user/module/probe_openssl.go:244-253 | `uint64(x)` is below 2^64, is `x` itself for values in range, and wraps negatives by adding 2^64 |
| Bytes.HexDigit | user/module/probe_openssl.go:445 | a nibble prints as a lowercase hex digit |
| Bytes.DigitValue | user/module/probe_openssl.go:445 | a character has a value iff it is a lowercase hex digit, and the value prints back as that digit |
| Bytes.HexByte | user/module/probe_openssl.go:445 | `%02x` of one byte is exactly two hex digits, high nibble first |
| Bytes.Hex | user/module/probe_openssl.go:445 | `%02x` on a byte array prints two characters per byte |
| Bytes.HexDigitsOnly | user/module/probe_openssl.go:445 | every character `%02x` prints is a lowercase hex digit |
| Bytes.UnhexHex | user/module/probe_openssl.go:458 | decoding the hex of any byte string gives that byte string back |
| Bytes.HexInjective | user/module/probe_openssl.go:445-447 | two client randoms have the same dedup key iff they are equal |
| KeyLog.LabelsArePlain | user/module/probe_openssl.go:458 | none of the six NSS labels contains a space or a newline |
| KeyLog.RenderSnoc | user/module/probe_openssl.go:481-491 | appending a line to the buffer is the rendering of the longer line list |
| KeyLog.IndexOf | user/module/probe_openssl.go:458 | finds the first occurrence of a separator, or reports there is none |
| KeyLog.IndexOfSeparator | user/module/probe_openssl.go:458 | the first separator in `a + c + b` is at `|a|` when `a` has none |
| KeyLog.SplitAt | user/module/probe_openssl.go:458 | splitting at a separator leaves a strictly shorter rest |
| KeyLog.SplitAtSeparator | user/module/probe_openssl.go:458 | splitting `a + c + b` at `c` gives `a` and `b` when `a` has no `c` |
| KeyLog.HexIsPlain | user/module/probe_openssl.go:458 | hex fields contain no space and no newline |
| KeyLog.ParseBody | user/module/probe_openssl.go:458 | one formatted line parses back to its label, client random and secret |
| KeyLog.ParseRender | user/module/probe_openssl.go:474-491 | a buffer of lines with plain labels parses back to exactly those lines, in order |
| KeyLog.SessionOfRender | user/module/probe_openssl.go:476-477 | a rendered entry names the client random of its first line |
| KeySchedule.CipherSuite | user/module/probe_openssl.go:462-472 | a suite is known iff the low 16 bits of `CipherId` are 0x1301, 0x1302 or 0x1303; its length is its digest size (at most 64); SHA-384 iff 0x1302 |
| KeySchedule.OpenSslTls12Line | user/module/probe_openssl.go:456-458 | every version other than 1.3 yields exactly one CLIENT_RANDOM line with the master key, and it parses back |
| KeySchedule.OpenSslTls13Lines | user/module/probe_openssl.go:459-491 | TLS 1.3 yields nothing iff the suite is unknown; otherwise exactly five lines: client-HS and server-HS expanded from the truncated inputs, untruncated app secrets, exporter truncated to the suite length |
| KeySchedule.HandshakeSecretsDeterministic | user/module/probe_openssl.go:474-480 | the handshake secrets depend only on the suite and the truncated handshake secret and transcript hash |
| KeySchedule.OpenSslLinesOneSession | user/module/probe_openssl.go:456-495 | every line of an OpenSSL event carries that event's client random and a plain label |
| KeySchedule.OpenSslLines | user/module/probe_openssl.go:456-495 | an OpenSSL event yields one line for TLS 1.2 and five for TLS 1.3, all for its client random; only a TLS 1.3 event can yield nothing |
| KeySchedule.BsslEvent12NullSecrets | user/module/probe_openssl.go:575-585 | the loop returns true iff `Secret[0..HashLen)` is all zero, including `HashLen == 0` |
| KeySchedule.BsslEvent13NullSecrets | user/module/probe_openssl.go:587-619 | the loop returns true iff at least one of the five buffers is all zero on `[0, HashLen)`; the counter drops once per buffer and stays in 0..5 |
| KeySchedule.BsslLines | user/module/probe_openssl.go:527-551 | a BoringSSL event yields one line for TLS 1.2 and five for any other version, each carrying its client random and a secret of exactly `HashLen` bytes |
| KeySchedule.BsslLinesShape | user/module/probe_openssl.go:527-551 | TLS 1.2 gives one CLIENT_RANDOM line with `Secret[:HashLen]`; any other version gives CHS, CTS, SHS, STS, ES truncated to `HashLen`; an accepted event has `HashLen >= 1` |
| SecretStore.SeenSessionIsNoOp | user/module/probe_openssl.go:445-451 | an event whose client random is already marked changes nothing and writes nothing (both event kinds) |
| SecretStore.OpenSslMarksSessionFirst | user/module/probe_openssl.go:452 | a new OpenSSL event grows `masterKeys` by exactly its key, whatever happens after |
| SecretStore.UnknownCipherSuppressesSession | user/module/probe_openssl.go:462-471 | an unknown TLS 1.3 suite writes nothing but marks the session, so any later event for it is a duplicate |
| SecretStore.BsslNullGuard | user/module/probe_openssl.go:526-544 | a new BoringSSL event is rejected iff its guard holds; then the store is unchanged, and otherwise its key is marked and, unless the key-log write fails, its rendered lines are appended |
| SecretStore.ReplayIsNoOp | user/module/probe_openssl.go:443-452 | handling the same event a second time changes nothing |
| SecretStore.DispatchAppendsAtMostOnce | user/module/probe_openssl.go:497-512 | one event appends at most one key-log entry, the whole rendered buffer, only on a written or sink-failed outcome; TC mode mirrors the same entry; `masterKeys` only grows (the converse is `SecretStore.AcceptedIsWritten`) |
| SecretStore.AppendKeepsDedup | user/module/probe_openssl.go:555-559 | appending one new session's buffer keeps one entry per session |
| SecretStore.DispatchKeepsDedup | user/module/probe_openssl.go:621-637 | any dispatched event keeps the key-log at one entry per client random |
| SecretStore.RunKeepsDedup | user/module/probe_openssl.go:621-637 | over any interleaving of events the key-log never holds two entries for one client random |
| SecretStore.DispatchKeepsMirror | user/module/probe_openssl.go:504-512 | a step that does not stop the process keeps the sink equal to the key-log in TC mode and empty in uprobe mode |
| SecretStore.RunKeepsMirror | user/module/probe_openssl.go:562-572 | as long as no write failed, the sink mirrors the key-log |
| SecretStore.EmptyStoreInvariants | user/module/probe_openssl.go:88 | the fresh store satisfies both invariants |
| SecretStore.Tls13SessionWrittenOnce | user/module/probe_openssl.go:459-491 | a first TLS 1.3 SHA-256 event appends one entry parsing to the five labelled lines of its session with 32-byte derived secrets; repeating it writes nothing |
| SecretStore.Persist | user/module/probe_openssl.go:497-512 | writing a buffer never touches `masterKeys`; the key-log write fails iff its write fails, and otherwise the outcome is written or sink-failed; uprobe mode never touches the sink |
| SecretStore.SaveOpenSsl | user/module/probe_openssl.go:443-514 | a duplicate iff the key is already marked, else the key is marked; an unknown suite writes nothing; never a null-secret, panic or packet outcome |
| SecretStore.SaveBssl | user/module/probe_openssl.go:516-573 | a duplicate iff the key is already marked; a panic iff a new event has `HashLen` beyond its buffer; `masterKeys` is unchanged or grows by exactly the key; a null or panic outcome writes nothing |
| SecretStore.Dispatch | user/module/probe_openssl.go:621-637 | `masterKeys` only grows; any other event leaves the store unchanged; a packet reports a dump failure iff the dump fails; connection, data and other events are ignored |
| SecretStore.Run | user/module/probe_openssl.go:621-637 | handling a sequence of events only grows `masterKeys`, and no events change nothing |
| SecretStore.EventLines | user/module/probe_openssl.go:443-573 | only master-secret events yield lines, all for that event's client random; a non-1.3 OpenSSL event always does; a BoringSSL event does iff `HashLen` fits its buffer |
| SecretStore.AcceptedIsWritten | user/module/probe_openssl.go:443-573 | a new master-secret event that yields lines and passes the null guard, written without a key-log failure, appends exactly its rendered lines, which parse back to them, and marks its key; sink-failed iff TC mode and the sink write fails |
| Ebpf.PlanOptions | user/module/probe_openssl.go:364-382 | 512 active probes, a 2097152-byte verifier log, an unlimited rlimit, and editors only under `EnableGlobalVar` |
| Ebpf.LowerChar | user/module/probe_openssl.go:275 | ASCII upper-case letters are shifted to lower case and every other character is kept |
| Ebpf.ToLower | user/module/probe_openssl.go:275 | lowercasing keeps the length and lowers each character |
| Ebpf.Contains | user/module/probe_openssl.go:135 | a string contains each of its prefixes, and only strings no longer than itself |
| Ebpf.Editor | user/module/probe_openssl.go:242-254 | a constant editor carries its name and the 64-bit wrap of its value |
| Registry.LookupError | user/module/probe_openssl.go:393-399 | a missing map reports its name, and a failed lookup passes on its error |
| Registry.RegisterAll | user/module/probe_openssl.go:391-437 | `eventMaps` grows by at most one handle per channel, and by exactly one per channel iff no error is returned |
| Registry.FoundHandles | user/module/probe_openssl.go:391-424 | the handles found before the first failed lookup, in channel order |
| Registry.RegisterAllEffect | user/module/probe_openssl.go:391-437 | `eventMaps` grows by exactly the handles found before the first failure; an error is returned iff some lookup fails, and it is that lookup's error; no other decoder key appears |
| Registry.RegisterAllDecoders | user/module/probe_openssl.go:400-434 | with distinct handles, each registered handle decodes with its channel's decoder and other handles keep theirs |
| Registry.Lookup | user/module/probe_bash.go:190-193 | `DecodeFun` of either probe: a handle has a decoder iff it is registered, and then it is the registered one, with found = false for any other handle |
| Registry.DecoderRegistry.constructor | user/module/probe_openssl.go:85-86 | a new registry is empty |
| Registry.DecoderRegistry.Reset | user/module/probe_openssl.go:85-86 | both collections become empty |
| Registry.DecoderRegistry.DecodeFun | user/module/probe_openssl.go:386-389 | the registry's `DecodeFun`, which both probes use, agrees with `Lookup` on its contents |
| Registry.DecoderRegistry.RegisterChannel | user/module/probe_openssl.go:393-403 | a found map is appended and mapped to the decoder; otherwise the error comes back and nothing changes |
| ProbeBash.BashPath | user/module/probe_bash.go:131-139 | Bin picks `Bashpath`, So picks `Readline`, anything else `/bin/bash` |
| ProbeBash.BashPlan | user/module/probe_bash.go:144-166 | two probes, both on the chosen path, and one map |
| ProbeBash.BashChannels | user/module/probe_bash.go:195-209 | exactly one channel, decoded as bash events |
| ProbeBash.BashPlanShape | user/module/probe_bash.go:144-166 | exactly two return probes, `readline` and `execute_command`, both on the chosen path, and the single map `events` |
| ProbeBash.BashEditors | user/module/probe_bash.go:97-113 | exactly `target_pid`, `target_uid`, `target_errno`, carrying `uint64` of the config values |
| ProbeBash.BashChannelsMatchPlan | user/module/probe_bash.go:161-165 | the registered channels are exactly the plan's maps |
| ProbeBash.BashRegistration | user/module/probe_bash.go:195-209 | `events` found: the registry grows by exactly that handle, which decodes as bash, and other handles are untouched; missing: the error comes back, nothing changes |
| ProbeBash.BashProbe.constructor | user/module/probe_bash.go:32-38 | a probe with an empty registry and no plan |
| ProbeBash.BashProbe.Init | user/module/probe_bash.go:41-48 | takes the configuration and empties the registry |
| ProbeBash.BashProbe.SetupManagers | user/module/probe_bash.go:130-188 | installs the plan on the chosen path and the options, editors only under `EnableGlobalVar` |
| ProbeBash.BashProbe.InitDecodeFun | user/module/probe_bash.go:195-210 | the registry changes as `RegisterAll` of the `events` channel says |
| ProbeBash.BashProbe.Start | user/module/probe_bash.go:57-87 | an asset failure comes before any plan; then init, start and registration failures in that order, with the registry untouched before registration |
| ProbeOpenssl.ModeFor | user/module/probe_openssl.go:98-109 | TC mode iff `Write` is non-empty |
| ProbeOpenssl.ResolveBpfFile | user/module/probe_openssl.go:143-156 | a non-empty known version takes the table's file; otherwise detection decides, and a failed detection keeps the old file and is an error |
| ProbeOpenssl.HookFuncFor | user/module/probe_openssl.go:134-141 | `SSL_in_init` for a file naming boringssl, `SSL_write` otherwise |
| ProbeOpenssl.UprobeBinaryPath | user/module/probe_openssl.go:276-292 | Bin picks `Curlpath`, So picks `Openssl`, anything else the default libssl path |
| ProbeOpenssl.UprobePlan | user/module/probe_openssl.go:302-362 | five probes, all on the given path, and three maps |
| ProbeOpenssl.UprobePlanShape | user/module/probe_openssl.go:302-362 | exactly five probes on one path in the source's order, the master-key probe alone carrying an identifier and hooking the resolved function, and exactly the three maps |
| ProbeOpenssl.OpensslEditors | user/module/probe_openssl.go:240-270 | exactly `target_pid`, `target_uid`, `target_port`, carrying `uint64` of the config values |
| ProbeOpenssl.OpensslChannelsMatchPlan | user/module/probe_openssl.go:351-361 | the registered channels are exactly the plan's maps, in order |
| ProbeOpenssl.OpensslChannels | user/module/probe_openssl.go:391-437 | three channels, the master-secret one decoded as BoringSSL events iff the flavour is BoringSSL |
| ProbeOpenssl.OpensslRegistration | user/module/probe_openssl.go:391-437 | with all three maps found, the registry grows by the three handles and the master-secret map decodes BoringSSL events iff the flavour is BoringSSL |
| ProbeOpenssl.OpenSslProbe.constructor | user/module/probe_openssl.go:58-78 | a probe with Go's zero values: empty store, TC mode, no flavour, no plan |
| ProbeOpenssl.OpenSslProbe.Init | user/module/probe_openssl.go:81-130 | resets the registry and seen set, then each step in order (key-log open, mode and path, clock, version table), each failure stopping the rest; success leaves a store satisfying both invariants |
| ProbeOpenssl.OpenSslProbe.SelectMode | user/module/probe_openssl.go:98-109 | TC mode iff `Write` is non-empty, with the capture file's absolute path or its error |
| ProbeOpenssl.OpenSslProbe.GetSslBpfFile | user/module/probe_openssl.go:133-157 | the file is `ResolveBpfFile`'s; on every path the hook follows its flavour and a BoringSSL file sets the sticky `isBoringSSL` |
| ProbeOpenssl.OpenSslProbe.SetupManagersUprobe | user/module/probe_openssl.go:272-384 | no flavour lookup for a binary; a resolution or existence failure leaves the plan alone; success installs `UprobePlan` on the chosen path and the options |
| ProbeOpenssl.OpenSslProbe.InitDecodeFun | user/module/probe_openssl.go:391-437 | the registry changes as `RegisterAll` of the three channels says, the master-secret decoder chosen by flavour |
| ProbeOpenssl.OpenSslProbe.PersistBuffer | user/module/probe_openssl.go:497-512 | one key-log write of the whole buffer, then in TC mode the same bytes to the sink, a failure stopping there |
| ProbeOpenssl.OpenSslProbe.SaveMasterSecret | user/module/probe_openssl.go:443-514 | the new store and outcome are exactly `SaveOpenSsl`'s |
| ProbeOpenssl.OpenSslProbe.SaveMasterSecretBssl | user/module/probe_openssl.go:516-573 | the new store and outcome are exactly `SaveBssl`'s |
| ProbeOpenssl.OpenSslProbe.Dispatcher | user/module/probe_openssl.go:621-637 | the new store and outcome are exactly `Dispatch`'s; dedup always survives, and both invariants survive any non-fatal event |
| ProbeOpenssl.Tls13Buffer | user/module/probe_openssl.go:474-491 | the buffer built line by line is the rendering of the five TLS 1.3 lines |
| ProbeOpenssl.Bssl13Buffer | user/module/probe_openssl.go:546-551 | the buffer built line by line is the rendering of the five BoringSSL lines |
| ProbeOpenssl.AppendLine | user/module/probe_openssl.go:481-482 | one `WriteString` of a formatted line extends the rendering by that line |

## Left out

- TC mode setup (`setupManagersTC`, `initDecodeFunTC`), the capture file (`savePcapng`, `savePcapngSslKeyLog`, `dumpTcSkb`) and library detection (`detectOpenssl`) are defined outside the two modelled files. Their results are inputs: write failures, packet-dump failures and the detected file.
- The OpenSSL probe's `start` is not modelled. Its TC branch depends on those unseen functions.
- `Close`, logging, the module registration in `init()` and the boot-time clock arithmetic in `Init` are left out; only whether the clock can be read is kept.
- HKDF-Expand-Label and SHA-256/384 live in an unseen package. `expand` is any function returning `length` bytes.
- Event decoding from kernel bytes is left out. Events start as decoded records with fixed-width buffers: client random 32 bytes, master key and BoringSSL `Secret` 48, the other buffers 64. Those widths are assumed from the event package, which is not part of this model.
- Concurrency is left out. The source takes no lock around `masterKeys`, and events are handled one at a time.
- `Fatalf` and Go run-time panics are modelled as outcomes that stop `Run`, not as process exit.
- Ebpf.ToLower: lowers ASCII letters only; the Unicode case mapping of `strings.ToLower` is not modelled.
- KeySchedule.BsslEvent12NullSecrets and KeySchedule.BsslEvent13NullSecrets: they require `HashLen` within the buffer width. Beyond that width the guard either indexes out of range or returns false, and then the slice that follows panics. `SaveBssl` models that panic separately, including the one case where the key is marked before the panic.
- The constants defined in packages outside the two modelled files are not read from there: the six key-log labels (keylog.dfy), the two HKDF-Expand-Label labels, the three cipher-suite ids and the two version tags (key_schedule.dfy), and the two master-key hook names (probe_openssl.dfy, taken from the field comment at user/module/probe_openssl.go:77). The model gives them the values of the NSS key-log format and of RFC 8446. `SecretStore.Dedup` and `SecretStore.RunKeepsDedup` rely on the labels having no space and no newline (`KeyLog.ParseRender` requires plain labels, and `KeyLog.LabelsArePlain` proves that of the six).
- The key-log is modelled as this run's writes, starting at `Init`. Bytes already in an existing file are not modelled.

## Notes on the code

Two behaviours of the code are easy to misread; the model follows the code.

- `saveMasterSecret` marks the client random before it checks the cipher suite (user/module/probe_openssl.go:452, 469-471). An event with an unknown TLS 1.3 suite therefore writes nothing, yet suppresses every later event for that session (`SecretStore.UnknownCipherSuppressesSession`).
- `bSSLEvent13NullSecrets` rejects an event when any one of the five buffers is all zero, not only when all five are (user/module/probe_openssl.go:588, 618). See `KeySchedule.NullSecrets13`.

A `%02x` with a width only changes the output for an empty slice. In the model every written secret is non-empty. For BoringSSL this follows from the guard, which rejects `HashLen == 0`.
