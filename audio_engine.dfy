/** The effect-engine controller: pedal on/off state, the parameter record, the bypass wrappers of
    the eight stages, the shared curve cache, and the connection and meter flags. The Web Audio
    graph is reduced to the gain targets, the values written into the nodes and the list of
    connections made. */
module AudioEngine {
  import opened Numerics
  import opened Samples
  import opened NoteMapping
  import opened DistortionCurve
  import opened EngineGraph

  /** `createBypassable`: a stage whose signal runs through a dry and a wet gain into one output.
      The wrapper itself is never reassigned; what `setBypass` changes is the target value of its
      two gain nodes, so a wrapper is modelled by those two targets. */
  datatype Wrapper = Wrapper(dryTarget: real, wetTarget: real)

  /** A new wrapper starts bypassed: dry 1, wet 0. */
  const NewWrapper: Wrapper := Wrapper(1.0, 0.0)

  /** `setBypass(b)`: both gains are retargeted. */
  function SetBypass(w: Wrapper, bypassed: bool): (r: Wrapper)
    ensures (r.dryTarget, r.wetTarget) == BypassTargets(bypassed)
  {
    if bypassed then Wrapper(1.0, 0.0) else Wrapper(0.0, 1.0)
  }

  /** The new targets do not depend on the old ones: repeating a call changes nothing, the last
      call wins, and a new wrapper is exactly a bypassed one. */
  lemma SetBypassForgetsHistory(w: Wrapper, b: bool, c: bool)
    ensures SetBypass(SetBypass(w, b), b) == SetBypass(w, b)
    ensures SetBypass(SetBypass(w, b), c) == SetBypass(w, c)
    ensures SetBypass(w, true) == NewWrapper
    ensures SetBypass(w, b).dryTarget + SetBypass(w, b).wetTarget == 1.0
  {
  }

  /** `PerformanceStats`. */
  datatype Stats = Stats(cpu: int, memory: int, latency: int)

  const ZeroStats: Stats := Stats(0, 0, 0)

  /** The result of the permission query. */
  datatype Permission = Granted | Prompt | Denied | Unknown

  /** What `getUserMedia` does: hand over a stream, or reject with a named error. */
  datatype MediaOutcome = Stream | Failure(name: string, message: string)

  const DeniedText: string := "Acesso ao microfone negado. Habilite nas configurações do navegador."
  const FallbackText: string := "Erro ao conectar áudio."

  /** The text `connect` shows for an error with the given `name` and `message`. */
  function ErrorMessage(name: string, message: string): (m: string)
    ensures m != ""
    ensures m == message || m == FallbackText || m == "Permissão de microfone negada."
         || m == "Nenhum dispositivo de áudio encontrado." || m == "Dispositivo de áudio em uso por outro app."
  {
    if name == "NotAllowedError" then "Permissão de microfone negada."
    else if name == "NotFoundError" then "Nenhum dispositivo de áudio encontrado."
    else if name == "NotReadableError" then "Dispositivo de áudio em uso por outro app."
    else if message != "" then message
    else FallbackText
  }

  /** The failure `connect` runs into, as the `(name, message)` of what is thrown: a denied
      permission throws a plain `Error` before the microphone is asked for. */
  function ConnectFailure(permission: Permission, media: MediaOutcome): Option<(string, string)>
  {
    if permission == Denied then Some(("Error", DeniedText))
    else if media.Failure? then Some((media.name, media.message))
    else None
  }

  /** A denied permission shows its own explanation, and the three known device errors show their
      fixed texts whatever their message, so the user always sees a non-empty reason. */
  lemma ConnectErrorTexts(media: MediaOutcome)
    ensures ConnectFailure(Denied, media) == Some(("Error", DeniedText))
    ensures ErrorMessage("Error", DeniedText) == DeniedText
    ensures media.Failure? && media.name in {"NotAllowedError", "NotFoundError", "NotReadableError"} ==>
      ErrorMessage(media.name, media.message) != media.message || media.message in
        {"Permissão de microfone negada.", "Nenhum dispositivo de áudio encontrado.", "Dispositivo de áudio em uso por outro app."}
    ensures media.Failure? && media.message == "" ==> ErrorMessage(media.name, media.message) != ""
  {
  }

  /** The meter reading `Math.min(1, Math.sqrt(sum / 128) * 5)` of one 128-sample frame. */
  function MeterLevel(frame: seq<real>, sqrt: real -> real): real
    requires |frame| == 128
  {
    MinR(1.0, sqrt(SumSquares(frame, 128) / 128.0) * 5.0)
  }

  /** The published level lies in `[0, 1]` and saturates at 1 for a loud frame. */
  lemma {:induction false} MeterLevelInRange(frame: seq<real>, sqrt: real -> real)
    requires |frame| == 128
    requires forall x: real :: x >= 0.0 ==> sqrt(x) >= 0.0
    ensures 0.0 <= MeterLevel(frame, sqrt) <= 1.0
    ensures sqrt(SumSquares(frame, 128) / 128.0) >= 0.2 ==> MeterLevel(frame, sqrt) == 1.0
  {
    QuotientNonnegative(SumSquares(frame, 128), 128.0);
  }

  /** What the meter, the tuner and the stats interval publish. */
  datatype Readings = Readings(inputLevel: real, tunerData: TunerData, stats: Stats)

  const ZeroReadings: Readings := Readings(0.0, Silent, ZeroStats)

  /** The references the hook keeps to the current audio graph: the context with its stream and
      source node (created together), the master gain node and its value, the analyser, the
      native nodes the live update writes into, the stage wrappers (`effectsMap`) and the
      connections made in the context, in order. */
  datatype Graph = Graph(
    contextOpen: bool, masterGain: Option<real>, analyserPresent: bool,
    nodes: Option<NodeSettings>, effectsMap: map<Effect, Wrapper>, connections: seq<Edge>)

  /** Every reference null and `effectsMap` empty. */
  const NoGraph: Graph := Graph(false, None, false, None, map[], [])

  /** Everything the controller holds, as one value. */
  datatype EngineState = EngineState(
    pedalState: map<Effect, bool>, params: Params, isConnected: bool, isLoading: bool,
    error: Option<string>, readings: Readings, meterRunning: bool, perfRunning: bool, graph: Graph)

  /** The wrapper of pedal `e` as `buildEffectsChain` leaves it: bypassed exactly when the pedal is off. */
  function StageFor(pedals: map<Effect, bool>, e: Effect): (w: Wrapper)
    requires e in pedals
    ensures pedals[e] <==> w.wetTarget == 1.0
  {
    SetBypass(NewWrapper, !pedals[e])
  }

  /** The invariant of the controller's state: every pedal has an on/off value and the parameter
      record its shape; the wrappers, when present, cover every pedal and each is bypassed exactly
      when its pedal is off; a connected engine has its context, master gain, analyser, nodes and
      wrappers, wired as the series chain. */
  ghost predicate Consistent(s: EngineState)
  {
    && (forall e: Effect :: e in s.pedalState)
    && WellFormed(s.params)
    && (s.graph.effectsMap == map[] || forall e: Effect :: e in s.graph.effectsMap)
    && (forall e :: e in s.graph.effectsMap ==> s.graph.effectsMap[e] == StageFor(s.pedalState, e))
    && (s.isConnected ==>
          && s.graph.contextOpen && s.graph.masterGain.Some? && s.graph.analyserPresent
          && s.graph.nodes.Some? && s.graph.effectsMap != map[] && s.graph.connections == BuildEdges())
  }

  /** `togglePedal(p)`: `{ ...prev, [p]: !prev[p] }`, and `setBypass(!newState[p])` on the wrapper
      of `p` when there is one. */
  function Toggled(s: EngineState, p: Effect): EngineState
    requires p in s.pedalState
  {
    var pedals := s.pedalState[p := !s.pedalState[p]];
    var m := s.graph.effectsMap;
    s.(pedalState := pedals,
       graph := s.graph.(effectsMap := if p in m then m[p := SetBypass(m[p], !pedals[p])] else m))
  }

  /** Toggling flips exactly the one pedal, retargets only its wrapper, and changes nothing else. */
  lemma {:induction false} ToggleFlipsOnePedal(s: EngineState, p: Effect)
    requires p in s.pedalState
    ensures Toggled(s, p).pedalState.Keys == s.pedalState.Keys
    ensures Toggled(s, p).pedalState[p] == !s.pedalState[p]
    ensures forall q :: q in s.pedalState && q != p ==> Toggled(s, p).pedalState[q] == s.pedalState[q]
    ensures Toggled(s, p).graph.effectsMap.Keys == s.graph.effectsMap.Keys
    ensures p in s.graph.effectsMap ==> (Toggled(s, p).graph.effectsMap[p].wetTarget == 1.0 <==> !s.pedalState[p])
    ensures forall q :: q in s.graph.effectsMap && q != p ==> Toggled(s, p).graph.effectsMap[q] == s.graph.effectsMap[q]
    ensures Toggled(s, p).(pedalState := s.pedalState, graph := s.graph) == s
    ensures Toggled(s, p).graph.(effectsMap := s.graph.effectsMap) == s.graph
  {
    var m := s.graph.effectsMap;
    if p in m {
      assert Toggled(s, p).graph.effectsMap == m[p := SetBypass(m[p], s.pedalState[p])];
    }
  }

  /** When the pedal's wrapper reflects its pedal, as the invariant keeps it, toggling the same pedal
      twice restores the state, wrappers included. */
  lemma {:induction false} ToggleTwiceRestores(s: EngineState, p: Effect)
    requires p in s.pedalState
    requires p in s.graph.effectsMap ==> s.graph.effectsMap[p] == StageFor(s.pedalState, p)
    ensures Toggled(Toggled(s, p), p) == s
  {
    var t := Toggled(s, p);
    var u := Toggled(t, p);
    FlipTwice(s.pedalState, p);
    assert u.pedalState == s.pedalState;
    if p in s.graph.effectsMap {
      RetargetTwice(s.graph.effectsMap, p, s.pedalState[p]);
    }
    assert u.graph.effectsMap == s.graph.effectsMap;
    assert u.graph == s.graph;
  }

  lemma FlipTwice(ps: map<Effect, bool>, p: Effect)
    requires p in ps
    ensures ps[p := !ps[p]][p := !ps[p := !ps[p]][p]] == ps
  {
  }

  lemma RetargetTwice(m: map<Effect, Wrapper>, p: Effect, on: bool)
    requires p in m && m[p] == SetBypass(NewWrapper, !on)
    ensures var once := m[p := SetBypass(m[p], on)];
            once[p := SetBypass(once[p], !on)] == m
  {
  }

  /** `disconnect()`: intervals stopped, context closed, every graph reference dropped, readings
      zeroed. Parameters, pedal state, the error text and the loading flag are kept. */
  function Disconnected(s: EngineState): EngineState
  {
    s.(isConnected := false, readings := ZeroReadings, meterRunning := false, perfRunning := false, graph := NoGraph)
  }

  predicate IsDisconnected(s: EngineState)
  {
    !s.isConnected && s.readings == ZeroReadings && !s.meterRunning && !s.perfRunning && s.graph == NoGraph
  }

  /** Disconnecting reaches the sentinel state, keeps the user's settings, and a second disconnect
      changes nothing. */
  lemma {:induction false} DisconnectIsIdempotent(s: EngineState)
    ensures IsDisconnected(Disconnected(s))
    ensures Disconnected(s).params == s.params && Disconnected(s).pedalState == s.pedalState
    ensures Disconnected(s).error == s.error && Disconnected(s).isLoading == s.isLoading
    ensures Disconnected(Disconnected(s)) == Disconnected(s)
    ensures IsDisconnected(s) ==> Disconnected(s) == s
  {
  }

  /** `setVolume(v)`: the `volume` entry, and the master gain when there is one. */
  function VolumeSet(s: EngineState, value: real): EngineState
    requires WellFormed(s.params)
  {
    s.(params := VolumeUpdated(s.params, value),
       graph := s.graph.(masterGain := if s.graph.masterGain.Some? then Some(value) else None))
  }

  /** Setting the volume changes no effect field; the master gain follows it only when a graph exists. */
  lemma {:induction false} VolumeSetChangesOnlyVolume(s: EngineState, value: real)
    requires WellFormed(s.params)
    ensures WellFormed(VolumeSet(s, value).params) && Volume(VolumeSet(s, value).params) == value
    ensures forall k, f :: FieldValue(VolumeSet(s, value).params, k, f) == FieldValue(s.params, k, f)
    ensures VolumeSet(s, value).graph.masterGain == (if s.graph.masterGain.Some? then Some(value) else None)
    ensures VolumeSet(s, value).(params := s.params, graph := s.graph) == s
  {
    var r := VolumeUpdated(s.params, value);
    assert forall k, f :: FieldValue(r, k, f) == FieldValue(s.params, k, f);
  }

  /** Each state change of the controller keeps its invariant. */
  lemma ToggleKeepsConsistent(s: EngineState, p: Effect)
    requires Consistent(s)
    ensures Consistent(Toggled(s, p))
  {
    WrappersFollowToggle(s.graph.effectsMap, s.pedalState, p);
  }

  /** Retargeting the toggled pedal's wrapper keeps every wrapper in step with the new pedal state. */
  lemma WrappersFollowToggle(m: map<Effect, Wrapper>, pedals: map<Effect, bool>, p: Effect)
    requires p in pedals
    requires forall e :: e in m ==> e in pedals && m[e] == StageFor(pedals, e)
    ensures var flipped := pedals[p := !pedals[p]];
            var m' := if p in m then m[p := SetBypass(m[p], !flipped[p])] else m;
            forall e :: e in m' ==> m'[e] == StageFor(flipped, e)
  {
    var flipped := pedals[p := !pedals[p]];
    if p in m {
      SetBypassForgetsHistory(NewWrapper, pedals[p], !flipped[p]);
    }
  }

  lemma {:induction false} UpdateKeepsConsistent(s: EngineState, pedal: string, param: string, value: real)
    requires Consistent(s)
    ensures Consistent(s.(params := UpdatedParams(s.params, pedal, param, value)))
  {
    UpdateParamKeepsShape(s.params, pedal, param, value);
  }

  lemma VolumeKeepsConsistent(s: EngineState, value: real)
    requires Consistent(s)
    ensures Consistent(VolumeSet(s, value))
  {
  }

  /** The loading flag and the error text take no part in the invariant. */
  lemma FlagsKeepConsistent(s: EngineState, loading: bool, error: Option<string>)
    requires Consistent(s)
    ensures Consistent(s.(isLoading := loading, error := error))
  {
  }

  lemma DisconnectKeepsConsistent(s: EngineState)
    requires Consistent(s)
    ensures Consistent(Disconnected(s))
  {
  }

  /** The drive stage's curve amount `params.drive.gain * 0.5` and the distortion stage's
      `params.distortion.gain`. */
  function DriveAmount(p: Params): real
    requires WellFormed(p)
  {
    Field(p, Drive, "gain") * 0.5
  }

  function DistAmount(p: Params): real
    requires WellFormed(p)
  {
    Field(p, Distortion, "gain")
  }

  /** The eight wrappers `buildEffectsChain` creates, each after `setBypass(!pedalState[e])`. */
  function Stages(pedals: map<Effect, bool>): (m: map<Effect, Wrapper>)
    requires forall e: Effect :: e in pedals
    ensures forall e: Effect :: e in m && m[e] == StageFor(pedals, e)
  {
    map e: Effect | e in pedals :: StageFor(pedals, e)
  }

  /** The graph `buildEffectsChain` leaves on an open context with a master gain. */
  function BuiltGraph(g: Graph, pedals: map<Effect, bool>, settings: NodeSettings): Graph
    requires forall e: Effect :: e in pedals
  {
    g.(analyserPresent := true, nodes := Some(settings), effectsMap := Stages(pedals), connections := BuildEdges())
  }

  /** A successful `connect()`: context, stream and source, the master gain at the current volume,
      the chain built, the engine connected with both intervals running, `isLoading` cleared. */
  function Connected(s: EngineState, settings: NodeSettings): EngineState
    requires WellFormed(s.params) && forall e: Effect :: e in s.pedalState
  {
    var live := s.graph.(contextOpen := true, masterGain := Some(Volume(s.params)));
    s.(isLoading := false, error := None, isConnected := true, meterRunning := true, perfRunning := true,
       graph := BuiltGraph(live, s.pedalState, settings))
  }

  /** A failed connection keeps the invariant. */
  lemma FailureKeepsConsistent(s: EngineState, text: string)
    requires Consistent(s)
    ensures Consistent(Disconnected(s).(error := Some(text), isLoading := false))
  {
  }

  /** A connection keeps the invariant, keeps the user's settings and realises every pedal's on/off
      state in its wrapper. */
  lemma {:induction false} ConnectKeepsConsistent(s: EngineState, settings: NodeSettings)
    requires Consistent(s)
    ensures Consistent(Connected(s, settings))
    ensures Connected(s, settings).params == s.params && Connected(s, settings).pedalState == s.pedalState
    ensures forall e: Effect :: Connected(s, settings).graph.effectsMap[e].wetTarget == 1.0 <==> s.pedalState[e]
  {
    assert Compressor in Connected(s, settings).graph.effectsMap;
  }

  /** The live update replaces the node settings and nothing else. */
  lemma LiveUpdateKeepsConsistent(s: EngineState, settings: NodeSettings)
    requires Consistent(s) && s.graph.nodes.Some?
    ensures Consistent(s.(graph := s.graph.(nodes := Some(settings))))
  {
  }

  class Engine {
    var pedalState: map<Effect, bool>
    var params: Params
    var isConnected: bool
    var isLoading: bool
    var error: Option<string>
    var readings: Readings
    /** The meter and stats intervals are set. */
    var meterRunning: bool
    var perfRunning: bool
    var graph: Graph
    /** The module-level curve cache, shared by every engine. */
    const cache: CurveCache

    function State(): EngineState
      reads this
    {
      EngineState(pedalState, params, isConnected, isLoading, error, readings, meterRunning, perfRunning, graph)
    }

    ghost predicate Valid()
      reads this
    {
      Consistent(State())
    }

    /** The hook's initial state: every pedal off, default parameters, nothing connected. */
    constructor (cache: CurveCache)
      ensures Valid() && this.cache == cache
      ensures pedalState == AllOff
      ensures params == DefaultParams
      ensures IsDisconnected(State()) && error.None? && !isLoading
    {
      pedalState := AllOff;
      params := DefaultParams;
      isConnected := false;
      isLoading := false;
      error := None;
      readings := ZeroReadings;
      meterRunning := false;
      perfRunning := false;
      graph := NoGraph;
      this.cache := cache;
      DefaultParamsWellFormed();
      AllOffCoversEveryPedal();
    }

    /** `togglePedal(p)`. */
    method TogglePedal(p: Effect)
      requires Valid()
      modifies this
      ensures Valid()
      ensures State() == Toggled(old(State()), p)
    {
      ToggleKeepsConsistent(State(), p);
      var newState := pedalState[p := !pedalState[p]];
      var fx := graph.effectsMap;
      if p in fx {
        graph := graph.(effectsMap := fx[p := SetBypass(fx[p], !newState[p])]);
      }
      pedalState := newState;
    }

    /** `updateParam(pedal, param, value)`: only the parameter record changes. */
    method UpdateParam(pedal: string, param: string, value: real)
      requires Valid()
      modifies this
      ensures Valid()
      ensures State() == old(State()).(params := UpdatedParams(old(params), pedal, param, value))
    {
      UpdateKeepsConsistent(State(), pedal, param, value);
      params := UpdatedParams(params, pedal, param, value);
    }

    /** `setVolume(value)`. */
    method SetVolume(value: real)
      requires Valid()
      modifies this
      ensures Valid()
      ensures State() == VolumeSet(old(State()), value)
    {
      VolumeKeepsConsistent(State(), value);
      params := VolumeUpdated(params, value);
      if graph.masterGain.Some? {
        graph := graph.(masterGain := Some(value));
      }
    }

    /** `startMeter()`: starts the 80 ms meter interval unless one is running. */
    method StartMeter()
      modifies this
      ensures State() == old(State()).(meterRunning := true)
      ensures old(meterRunning) ==> State() == old(State())
    {
      if meterRunning {
        return;
      }
      meterRunning := true;
    }

    method StopMeter()
      modifies this
      ensures State() == old(State()).(meterRunning := false)
    {
      meterRunning := false;
    }

    /** One tick of the meter interval on the analyser's current 128-sample frame; without an
        analyser it does nothing. */
    method MeterTick(frame: array<real>, sqrt: real -> real)
      requires frame.Length == 128
      modifies this
      ensures State() == old(State()).(readings := old(readings).(inputLevel :=
                if graph.analyserPresent then MeterLevel(frame[..], sqrt) else old(readings.inputLevel)))
    {
      if !graph.analyserPresent {
        return;
      }
      var sum := SumOfSquares(frame);
      readings := readings.(inputLevel := MinR(1.0, sqrt(sum / 128.0) * 5.0));
    }

    /** The body of `disconnect()`: stop the intervals, close the context, drop every graph
        reference and zero the readings. */
    method TearDown()
      modifies this
      ensures State() == Disconnected(old(State()))
    {
      StopMeter();
      perfRunning := false;
      graph := NoGraph;
      isConnected := false;
      readings := ZeroReadings;
    }

    /** `disconnect()`. */
    method Disconnect()
      requires Valid()
      modifies this
      ensures Valid()
      ensures State() == Disconnected(old(State()))
    {
      DisconnectKeepsConsistent(State());
      TearDown();
    }

    /** The connections of `buildEffectsChain`: the analyser tap, the wrappers' own wiring, then
        `prev.connect(fx.input); prev = fx.output` along the chain and the outputs. */
    static method WireChain() returns (connections: seq<Edge>)
      ensures connections == BuildEdges()
    {
      WrapperEdgesInChainOrder();
      connections := [Edge(Source, Analyser, 0)] + AllWrapperEdges(ChainOrder);
      ghost var wiring := connections;
      var prev := Source;
      for i := 0 to |ChainOrder|
        invariant connections == wiring + ChainEdges(ChainOrder[..i])
        invariant prev == ChainTail(ChainOrder[..i])
      {
        assert ChainOrder[..i + 1][..i] == ChainOrder[..i];
        connections := connections + [Edge(prev, StageIn(ChainOrder[i]), 0)];
        prev := StageOut(ChainOrder[i]);
      }
      assert ChainOrder[..|ChainOrder|] == ChainOrder;
      connections := connections + [Edge(prev, Master, 0), Edge(Master, Merger, 0), Edge(Master, Merger, 1), Edge(Merger, Destination, 0)];
    }

    /** The two `makeDistortionCurve` calls, for the current drive and distortion gains. */
    method FetchCurves() returns (driveCurve: array<real>, distCurve: array<real>)
      requires cache.Valid() && WellFormed(params) && CurveAmountsInRange(params)
      modifies cache
      ensures cache.Valid()
      ensures CurveKey(DriveAmount(params)) in cache.entries && driveCurve == cache.entries[CurveKey(DriveAmount(params))]
      ensures CurveKey(DistAmount(params)) in cache.entries && distCurve == cache.entries[CurveKey(DistAmount(params))]
      ensures forall k :: k in old(cache.entries) ==> k in cache.entries && cache.entries[k] == old(cache.entries[k])
    {
      driveCurve := cache.MakeDistortionCurve(DriveAmount(params));
      distCurve := cache.MakeDistortionCurve(DistAmount(params));
    }

    /** `buildEffectsChain()` on an open context with a master gain: the analyser, the eight stages
        with their initial bypass, the node settings from the current parameters and the series
        chain. `settings` is what it writes into the native nodes. */
    method BuildEffectsChain() returns (settings: NodeSettings)
      requires (forall e: Effect :: e in pedalState) && cache.Valid() && CurveAmountsInRange(params)
      modifies this, cache
      ensures cache.Valid()
      ensures State() == old(State()).(graph := BuiltGraph(old(graph), old(pedalState), settings))
      ensures CurveKey(DriveAmount(params)) in cache.entries && CurveKey(DistAmount(params)) in cache.entries
      ensures settings == BuiltSettings(params, cache.entries[CurveKey(DriveAmount(params))], cache.entries[CurveKey(DistAmount(params))])
      ensures forall k :: k in old(cache.entries) ==> k in cache.entries && cache.entries[k] == old(cache.entries[k])
    {
      var driveCurve, distCurve := FetchCurves();
      settings := BuiltSettings(params, driveCurve, distCurve);
      var fx := Stages(pedalState);
      var wiring := WireChain();
      graph := graph.(analyserPresent := true, nodes := Some(settings), effectsMap := fx, connections := wiring);
    }

    /** `setIsConnected(true)`, `startMeter()`, the stats interval and the `finally`. */
    method MarkConnected()
      modifies this
      ensures State() == old(State()).(isConnected := true, meterRunning := true, perfRunning := true, isLoading := false)
    {
      isConnected := true;
      StartMeter();
      perfRunning := true;
      isLoading := false;
    }

    /** `setIsLoading(true); setError(null)`. */
    method BeginConnect()
      requires Valid()
      modifies this
      ensures Valid()
      ensures State() == old(State()).(isLoading := true, error := None)
    {
      FlagsKeepConsistent(State(), true, None);
      isLoading := true;
      error := None;
    }

    /** The `catch` and `finally` of `connect()`: the error text is shown and the graph torn down. */
    method FailConnect(text: string)
      requires Valid()
      modifies this
      ensures Valid()
      ensures State() == Disconnected(old(State())).(error := Some(text), isLoading := false)
    {
      FailureKeepsConsistent(State(), text);
      error := Some(text);
      TearDown();
      isLoading := false;
    }

    /** The `try` body of `connect()` after the microphone is granted, and its `finally`. */
    method OpenConnection()
      requires Valid() && cache.Valid() && CurveAmountsInRange(params) && error.None?
      modifies this, cache
      ensures Valid() && cache.Valid()
      ensures CurveKey(DriveAmount(params)) in cache.entries && CurveKey(DistAmount(params)) in cache.entries
      ensures State() == Connected(old(State()), BuiltSettings(params,
                cache.entries[CurveKey(DriveAmount(params))], cache.entries[CurveKey(DistAmount(params))]))
      ensures forall k :: k in old(cache.entries) ==> k in cache.entries && cache.entries[k] == old(cache.entries[k])
    {
      ghost var s0 := State();
      graph := graph.(contextOpen := true, masterGain := Some(Volume(params)));
      var settings := BuildEffectsChain();
      MarkConnected();
      ConnectKeepsConsistent(s0, settings);
    }

    /** `connect()`: on success a fresh context with the master gain at the current volume, the
        chain built, the meter and stats intervals running; on failure the error text is set and
        everything is torn down. `isLoading` is cleared on both paths. */
    method Connect(permission: Permission, media: MediaOutcome)
      requires Valid() && cache.Valid() && CurveAmountsInRange(params)
      modifies this, cache
      ensures Valid() && cache.Valid()
      ensures ConnectFailure(permission, media).Some? ==>
        var (name, message) := ConnectFailure(permission, media).value;
        State() == Disconnected(old(State())).(error := Some(ErrorMessage(name, message)), isLoading := false)
      ensures ConnectFailure(permission, media).None? ==>
        && CurveKey(DriveAmount(params)) in cache.entries && CurveKey(DistAmount(params)) in cache.entries
        && State() == Connected(old(State()), BuiltSettings(params,
             cache.entries[CurveKey(DriveAmount(params))], cache.entries[CurveKey(DistAmount(params))]))
    {
      BeginConnect();
      var failure := ConnectFailure(permission, media);
      if failure.Some? {
        var (name, message) := failure.value;
        FailConnect(ErrorMessage(name, message));
      } else {
        OpenConnection();
      }
    }

    /** The values the live-update effect writes: the two curves fetched, the rest from `params`. */
    method RefreshedSettings() returns (refreshed: NodeSettings)
      requires graph.nodes.Some? && cache.Valid() && CurveAmountsInRange(params)
      modifies cache
      ensures cache.Valid()
      ensures CurveKey(DriveAmount(params)) in cache.entries && CurveKey(DistAmount(params)) in cache.entries
      ensures refreshed == Refreshed(graph.nodes.value, params,
                cache.entries[CurveKey(DriveAmount(params))], cache.entries[CurveKey(DistAmount(params))])
      ensures forall k :: k in old(cache.entries) ==> k in cache.entries && cache.entries[k] == old(cache.entries[k])
    {
      var driveCurve, distCurve := FetchCurves();
      refreshed := Refreshed(graph.nodes.value, params, driveCurve, distCurve);
    }

    /** The live-update effect on a connected engine: the reachable nodes take their values from
        the current parameters. */
    method RefreshLive()
      requires Valid() && isConnected && cache.Valid() && CurveAmountsInRange(params)
      modifies this, cache
      ensures Valid() && cache.Valid()
      ensures CurveKey(DriveAmount(params)) in cache.entries && CurveKey(DistAmount(params)) in cache.entries
      ensures State() == old(State()).(graph := old(graph).(nodes := Some(Refreshed(old(graph.nodes.value), params,
                cache.entries[CurveKey(DriveAmount(params))], cache.entries[CurveKey(DistAmount(params))]))))
      ensures forall k :: k in old(cache.entries) ==> k in cache.entries && cache.entries[k] == old(cache.entries[k])
    {
      var refreshed := RefreshedSettings();
      LiveUpdateKeepsConsistent(State(), refreshed);
      graph := graph.(nodes := Some(refreshed));
    }

    /** The live-update effect: it returns at once when the engine is not connected. */
    method ApplyLiveParams()
      requires Valid() && cache.Valid() && CurveAmountsInRange(params)
      modifies this, cache
      ensures Valid() && cache.Valid()
      ensures !old(isConnected) ==> State() == old(State()) && cache.entries == old(cache.entries)
      ensures old(isConnected) ==>
        && CurveKey(DriveAmount(params)) in cache.entries && CurveKey(DistAmount(params)) in cache.entries
        && State() == old(State()).(graph := old(graph).(nodes := Some(Refreshed(old(graph.nodes.value), params,
             cache.entries[CurveKey(DriveAmount(params))], cache.entries[CurveKey(DistAmount(params))]))))
      ensures forall k :: k in old(cache.entries) ==> k in cache.entries && cache.entries[k] == old(cache.entries[k])
    {
      if !isConnected {
        return;
      }
      RefreshLive();
    }
  }
}
