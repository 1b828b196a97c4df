/**
 * The decoder registry each probe keeps: `eventMaps`, the event channels in
 * registration order, and `eventFuncMaps`, the decoder for each channel.
 * `RegisterAll` is the specification of an `initDecodeFun`: look up each
 * named map in turn, stop at the first lookup that errs or comes back empty,
 * and register the rest in order.
 */
module Registry {
  import opened Wrappers
  import opened Ebpf

  datatype Registry = Registry(eventMaps: seq<MapHandle>, eventFuncMaps: map<MapHandle, Decoder>)

  /** The error an unsuccessful lookup of `name` is reported as. */
  function LookupError(name: string, l: MapLookup): (e: ProbeError)
    requires !l.Found?
    ensures l.NotFound? ==> e == MapNotFound(name)
    ensures l.LookupFailed? ==> e == MapLookupError(l.msg)
  {
    if l.NotFound? then MapNotFound(name) else MapLookupError(l.msg)
  }

  function RegisterAll(rs: Registry, channels: seq<(string, Decoder)>, getMap: string -> MapLookup): (r: (Registry, Option<ProbeError>))
    ensures |rs.eventMaps| <= |r.0.eventMaps| <= |rs.eventMaps| + |channels|
    ensures r.1.None? <==> |r.0.eventMaps| == |rs.eventMaps| + |channels|
    decreases |channels|
  {
    if channels == [] then (rs, None)
    else
      var l := getMap(channels[0].0);
      if l.Found? then
        RegisterAll(Registry(rs.eventMaps + [l.handle], rs.eventFuncMaps[l.handle := channels[0].1]), channels[1..], getMap)
      else
        (rs, Some(LookupError(channels[0].0, l)))
  }

  /** The handles of the channels before the first unsuccessful lookup. */
  function FoundHandles(channels: seq<(string, Decoder)>, getMap: string -> MapLookup): (hs: seq<MapHandle>)
    ensures |hs| <= |channels|
    ensures forall i :: 0 <= i < |hs| ==> getMap(channels[i].0) == Found(hs[i])
    ensures |hs| < |channels| ==> !getMap(channels[|hs|].0).Found?
    decreases |channels|
  {
    if channels == [] || !getMap(channels[0].0).Found? then []
    else [getMap(channels[0].0).handle] + FoundHandles(channels[1..], getMap)
  }

  /** The channel the first unsuccessful lookup was for, if there is one. */
  function FirstMissing(channels: seq<(string, Decoder)>, getMap: string -> MapLookup): Option<nat>
  {
    var n := |FoundHandles(channels, getMap)|;
    if n < |channels| then Some(n) else None
  }

  /**
   * `eventMaps` grows by exactly the handles found before the first failure;
   * an error is returned iff some lookup fails, and it is that lookup's error;
   * the keys of `eventFuncMaps` grow by exactly those handles.
   */
  lemma {:induction false} RegisterAllEffect(rs: Registry, channels: seq<(string, Decoder)>, getMap: string -> MapLookup)
    ensures var (rs', err) := RegisterAll(rs, channels, getMap);
      var hs := FoundHandles(channels, getMap);
      && rs'.eventMaps == rs.eventMaps + hs
      && (err.None? <==> FirstMissing(channels, getMap).None?)
      && (FirstMissing(channels, getMap).Some? ==>
            err == Some(LookupError(channels[|hs|].0, getMap(channels[|hs|].0))))
      && (forall h :: h in rs'.eventFuncMaps <==> h in rs.eventFuncMaps || h in hs)
    decreases |channels|
  {
    if channels != [] {
      var l := getMap(channels[0].0);
      if l.Found? {
        var next := Registry(rs.eventMaps + [l.handle], rs.eventFuncMaps[l.handle := channels[0].1]);
        RegisterAllEffect(next, channels[1..], getMap);
        assert FoundHandles(channels, getMap) == [l.handle] + FoundHandles(channels[1..], getMap);
      }
    }
  }

  predicate Distinct(s: seq<MapHandle>) {
    forall i, j :: 0 <= i < j < |s| ==> s[i] != s[j]
  }

  /**
   * With distinct handles, each found channel's handle maps to that channel's
   * decoder, and every other key keeps its old decoder.
   */
  lemma {:induction false} RegisterAllDecoders(rs: Registry, channels: seq<(string, Decoder)>, getMap: string -> MapLookup)
    requires Distinct(FoundHandles(channels, getMap))
    ensures var rs' := RegisterAll(rs, channels, getMap).0;
      var hs := FoundHandles(channels, getMap);
      && (forall i :: 0 <= i < |hs| ==> hs[i] in rs'.eventFuncMaps && rs'.eventFuncMaps[hs[i]] == channels[i].1)
      && (forall h :: h in rs.eventFuncMaps && h !in hs ==> h in rs'.eventFuncMaps && rs'.eventFuncMaps[h] == rs.eventFuncMaps[h])
    decreases |channels|
  {
    if channels != [] {
      var l := getMap(channels[0].0);
      if l.Found? {
        var next := Registry(rs.eventMaps + [l.handle], rs.eventFuncMaps[l.handle := channels[0].1]);
        var hs := FoundHandles(channels, getMap);
        var tail := FoundHandles(channels[1..], getMap);
        assert hs == [l.handle] + tail;
        assert Distinct(tail) by {
          forall i, j | 0 <= i < j < |tail| ensures tail[i] != tail[j] {
            assert hs[i + 1] == tail[i] && hs[j + 1] == tail[j];
          }
        }
        assert l.handle !in tail by {
          forall i | 0 <= i < |tail| ensures tail[i] != l.handle {
            assert hs[0] == l.handle && hs[i + 1] == tail[i];
          }
        }
        RegisterAllDecoders(next, channels[1..], getMap);
      }
    }
  }

  /** The decoder registered for a handle, or none (found = false). */
  function Lookup(rs: Registry, h: MapHandle): (d: Option<Decoder>)
    ensures d.Some? <==> h in rs.eventFuncMaps
    ensures d.Some? ==> d.value == rs.eventFuncMaps[h]
  {
    if h in rs.eventFuncMaps then Some(rs.eventFuncMaps[h]) else None
  }

  /** The registry object a probe owns; `initDecodeFun` fills it, `DecodeFun` reads it. */
  class DecoderRegistry {
    var eventMaps: seq<MapHandle>
    var eventFuncMaps: map<MapHandle, Decoder>

    function Contents(): Registry
      reads this
    {
      Registry(eventMaps, eventFuncMaps)
    }

    constructor()
      ensures Contents() == Registry([], map[])
    {
      eventMaps := [];
      eventFuncMaps := map[];
    }

    /** `make` of both collections in `Init`. */
    method Reset()
      modifies this
      ensures Contents() == Registry([], map[])
    {
      eventMaps := [];
      eventFuncMaps := map[];
    }

    /** `DecodeFun`: the decoder and whether the handle is registered. */
    function DecodeFun(h: MapHandle): (d: Option<Decoder>)
      reads this
      ensures d == Lookup(Contents(), h)
    {
      if h in eventFuncMaps then Some(eventFuncMaps[h]) else None
    }

    /** One block of an `initDecodeFun`: look up the map, fail, or append it and record its decoder. */
    method RegisterChannel(name: string, decoder: Decoder, getMap: string -> MapLookup) returns (err: Option<ProbeError>)
      modifies this
      ensures var l := getMap(name);
        if l.Found? then
          err == None && Contents() == Registry(old(eventMaps) + [l.handle], old(eventFuncMaps)[l.handle := decoder])
        else
          err == Some(LookupError(name, l)) && Contents() == old(Contents())
    {
      var l := getMap(name);
      if l.LookupFailed? {
        return Some(MapLookupError(l.msg));
      }
      if !l.Found? {
        return Some(MapNotFound(name));
      }
      eventMaps := eventMaps + [l.handle];
      eventFuncMaps := eventFuncMaps[l.handle := decoder];
      return None;
    }
  }
}
