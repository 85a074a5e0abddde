/** The values the effect-engine controller works with: the eight effects in chain order, the
    parameter record, the node graph its wiring creates, and the settings it writes into the
    native nodes. */
module EngineGraph {
  import opened Numerics

  datatype Effect = Compressor | Drive | Distortion | Chorus | Tremolo | Delay | Wah | Reverb

  /** The fixed processing order source -> ... -> master. */
  const ChainOrder: seq<Effect> := [Compressor, Drive, Distortion, Chorus, Tremolo, Delay, Wah, Reverb]

  /** The record key of each effect in `PedalState` and `PedalParams`. */
  function EffectKey(e: Effect): (k: string)
    ensures k != VolumeKey
  {
    match e
    case Compressor => "compressor"
    case Drive => "drive"
    case Distortion => "distortion"
    case Chorus => "chorus"
    case Tremolo => "tremolo"
    case Delay => "delay"
    case Wah => "wah"
    case Reverb => "reverb"
  }

  const VolumeKey: string := "volume"

  /** Every effect occurs exactly once in the chain, and distinct effects have distinct keys. */
  lemma ChainOrderIsComplete()
    ensures |ChainOrder| == 8
    ensures forall e: Effect :: e in ChainOrder
    ensures forall i, j :: 0 <= i < j < |ChainOrder| ==> ChainOrder[i] != ChainOrder[j]
    ensures forall e1: Effect, e2: Effect :: e1 != e2 ==> EffectKey(e1) != EffectKey(e2)
  {
    EffectKeysDistinct();
    forall e: Effect ensures e in ChainOrder {
      match e
      case Compressor => assert ChainOrder[0] == e;
      case Drive => assert ChainOrder[1] == e;
      case Distortion => assert ChainOrder[2] == e;
      case Chorus => assert ChainOrder[3] == e;
      case Tremolo => assert ChainOrder[4] == e;
      case Delay => assert ChainOrder[5] == e;
      case Wah => assert ChainOrder[6] == e;
      case Reverb => assert ChainOrder[7] == e;
    }
  }

  lemma EffectKeysDistinct()
    ensures forall e1: Effect, e2: Effect :: e1 != e2 ==> EffectKey(e1) != EffectKey(e2)
  {
  }

  /** The initial `PedalState`: every pedal off. */
  const AllOff: map<Effect, bool> := map[Compressor := false, Drive := false, Distortion := false, Chorus := false,
                                         Tremolo := false, Delay := false, Wah := false, Reverb := false]

  lemma AllOffCoversEveryPedal()
    ensures forall e: Effect :: e in AllOff && !AllOff[e]
  {
    forall e: Effect ensures e in AllOff && !AllOff[e] {
      match e
      case Compressor =>
      case Drive =>
      case Distortion =>
      case Chorus =>
      case Tremolo =>
      case Delay =>
      case Wah =>
      case Reverb =>
    }
  }

  // ---------------------------------------------------------------- parameters

  /** One entry of `PedalParams`: an effect's field object, or the plain `volume` number. */
  datatype ParamEntry = Group(fields: map<string, real>) | Scalar(value: real)

  /** `PedalParams`, keyed by the same strings as the TypeScript record. */
  type Params = map<string, ParamEntry>

  /** The fields each effect's object declares. */
  function FieldNames(e: Effect): set<string>
  {
    match e
    case Compressor => {"threshold", "ratio", "attack", "release"}
    case Drive => {"gain", "tone"}
    case Distortion => {"gain", "tone"}
    case Chorus => {"rate", "depth", "feedback"}
    case Tremolo => {"rate", "depth"}
    case Delay => {"time", "feedback", "mix"}
    case Wah => {"frequency", "resonance"}
    case Reverb => {"decay", "mix"}
  }

  /** Every effect has its object with (at least) its declared fields, and `volume` is a number. */
  ghost predicate WellFormed(p: Params)
  {
    && (forall e: Effect :: EffectKey(e) in p && p[EffectKey(e)].Group? && FieldNames(e) <= p[EffectKey(e)].fields.Keys)
    && VolumeKey in p && p[VolumeKey].Scalar?
  }

  function Field(p: Params, e: Effect, name: string): real
    requires WellFormed(p) && name in FieldNames(e)
  {
    p[EffectKey(e)].fields[name]
  }

  function Volume(p: Params): real
    requires WellFormed(p)
  {
    p[VolumeKey].value
  }

  /** What reading `params[pedal][param]` observes: a number, or nothing. */
  function FieldValue(p: Params, pedal: string, param: string): Option<real>
  {
    if pedal in p && p[pedal].Group? && param in p[pedal].fields then Some(p[pedal].fields[param]) else None
  }

  /** The initial parameter record. */
  const DefaultParams: Params := map[
    "compressor" := Group(map["threshold" := -20.0, "ratio" := 4.0, "attack" := 0.003, "release" := 0.25]),
    "drive" := Group(map["gain" := 0.7, "tone" := 0.6]),
    "distortion" := Group(map["gain" := 0.8, "tone" := 0.6]),
    "chorus" := Group(map["rate" := 1.5, "depth" := 0.7, "feedback" := 0.4]),
    "tremolo" := Group(map["rate" := 4.0, "depth" := 0.5]),
    "delay" := Group(map["time" := 0.3, "feedback" := 0.4, "mix" := 0.5]),
    "wah" := Group(map["frequency" := 0.5, "resonance" := 10.0]),
    "reverb" := Group(map["decay" := 0.5, "mix" := 0.5]),
    VolumeKey := Scalar(0.8)]

  lemma DefaultParamsWellFormed()
    ensures WellFormed(DefaultParams)
    ensures Volume(DefaultParams) == 0.8
    ensures Field(DefaultParams, Drive, "gain") == 0.7 && Field(DefaultParams, Distortion, "gain") == 0.8
  {
    forall e: Effect
      ensures EffectKey(e) in DefaultParams && DefaultParams[EffectKey(e)].Group?
      ensures FieldNames(e) <= DefaultParams[EffectKey(e)].fields.Keys
    {
      match e
      case Compressor =>
      case Drive =>
      case Distortion =>
      case Chorus =>
      case Tremolo =>
      case Delay =>
      case Wah =>
      case Reverb =>
    }
  }

  /** `updateParam(pedal, param, value)`: `{ ...prev, [pedal]: { ...pp, [param]: value } }` when the
      entry is an object; otherwise the previous record itself. */
  function UpdatedParams(p: Params, pedal: string, param: string, value: real): (r: Params)
    ensures r.Keys == p.Keys
  {
    if pedal in p && p[pedal].Group? then p[pedal := Group(p[pedal].fields[param := value])] else p
  }

  /** Exactly the one field changes, only when its entry is an object; every other field of every
      entry, and `volume`, read as before. */
  lemma {:induction false} UpdateParamTouchesOneField(p: Params, pedal: string, param: string, value: real)
    ensures forall k, f :: FieldValue(UpdatedParams(p, pedal, param, value), k, f) ==
                           (if k == pedal && f == param && pedal in p && p[pedal].Group? then Some(value) else FieldValue(p, k, f))
    ensures VolumeKey in p && pedal != VolumeKey ==> UpdatedParams(p, pedal, param, value)[VolumeKey] == p[VolumeKey]
    ensures !(pedal in p && p[pedal].Group?) ==> UpdatedParams(p, pedal, param, value) == p
  {
    var r := UpdatedParams(p, pedal, param, value);
    forall k, f
      ensures FieldValue(r, k, f) ==
              (if k == pedal && f == param && pedal in p && p[pedal].Group? then Some(value) else FieldValue(p, k, f))
    {
      if pedal in p && p[pedal].Group? && k == pedal {
        assert r[k].fields == p[pedal].fields[param := value];
      }
    }
  }

  /** Updating a field never breaks the shape of the record. */
  lemma {:induction false} UpdateParamKeepsShape(p: Params, pedal: string, param: string, value: real)
    requires WellFormed(p)
    ensures WellFormed(UpdatedParams(p, pedal, param, value))
    ensures Volume(UpdatedParams(p, pedal, param, value)) == Volume(p)
  {
    var r := UpdatedParams(p, pedal, param, value);
    forall e: Effect
      ensures EffectKey(e) in r && r[EffectKey(e)].Group? && FieldNames(e) <= r[EffectKey(e)].fields.Keys
    {
      if EffectKey(e) == pedal {
        assert r[pedal].fields.Keys == p[pedal].fields.Keys + {param};
      }
    }
  }

  /** `setVolume(value)`: `{ ...prev, volume: value }`. */
  function VolumeUpdated(p: Params, value: real): (r: Params)
    requires WellFormed(p)
    ensures WellFormed(r) && Volume(r) == value
    ensures forall k, f :: FieldValue(r, k, f) == FieldValue(p, k, f)
  {
    p[VolumeKey := Scalar(value)]
  }

  /** The drive stage shapes with `gain * 0.5`, the distortion stage with `gain`. The gain knobs
      range over `[0, 1]`. */
  ghost predicate CurveAmountsInRange(p: Params)
  {
    WellFormed(p) && Field(p, Drive, "gain") >= 0.0 && Field(p, Distortion, "gain") >= 0.0
  }

  // ---------------------------------------------------------------- bypass targets

  /** `setBypass(b)` targets dry `b ? 1 : 0` and wet `b ? 0 : 1`. */
  function BypassTargets(bypassed: bool): (t: (real, real))
    ensures t.0 + t.1 == 1.0 && (t.0 == 0.0 || t.0 == 1.0)
    ensures bypassed <==> t.0 == 1.0
    ensures !bypassed <==> t.1 == 1.0
  {
    if bypassed then (1.0, 0.0) else (0.0, 1.0)
  }

  // ---------------------------------------------------------------- graph

  datatype Node =
    | Source | Analyser | Master | Merger | Destination
    | StageIn(e: Effect) | StageOut(e: Effect)
    | DryGain(e: Effect) | WetGain(e: Effect) | WetIn(e: Effect) | WetOut(e: Effect)

  /** `from.connect(to, 0, input)`. */
  datatype Edge = Edge(from: Node, to: Node, input: nat)

  /** The wrapper's own wiring: input -> dry -> output, input -> wet input, wet output -> wet -> output. */
  function WrapperEdges(e: Effect): (r: seq<Edge>)
    ensures |r| == 5
  {
    [Edge(StageIn(e), DryGain(e), 0), Edge(DryGain(e), StageOut(e), 0), Edge(StageIn(e), WetIn(e), 0),
     Edge(WetOut(e), WetGain(e), 0), Edge(WetGain(e), StageOut(e), 0)]
  }

  function AllWrapperEdges(stages: seq<Effect>): (r: seq<Edge>)
    ensures |r| == 5 * |stages|
  {
    if stages == [] then [] else AllWrapperEdges(stages[..|stages| - 1]) + WrapperEdges(stages[|stages| - 1])
  }

  /** The wrappers are created one after another in chain order. */
  lemma WrapperEdgesInChainOrder()
    ensures AllWrapperEdges(ChainOrder) ==
      WrapperEdges(Compressor) + WrapperEdges(Drive) + WrapperEdges(Distortion) + WrapperEdges(Chorus) +
      WrapperEdges(Tremolo) + WrapperEdges(Delay) + WrapperEdges(Wah) + WrapperEdges(Reverb)
  {
    var w := ChainOrder;
    assert w[..1][..0] == [];
    assert AllWrapperEdges(w[..1]) == WrapperEdges(Compressor);
    assert w[..2][..1] == w[..1];
    assert AllWrapperEdges(w[..2]) == AllWrapperEdges(w[..1]) + WrapperEdges(Drive);
    assert w[..3][..2] == w[..2];
    assert AllWrapperEdges(w[..3]) == AllWrapperEdges(w[..2]) + WrapperEdges(Distortion);
    assert w[..4][..3] == w[..3];
    assert AllWrapperEdges(w[..4]) == AllWrapperEdges(w[..3]) + WrapperEdges(Chorus);
    assert w[..5][..4] == w[..4];
    assert AllWrapperEdges(w[..5]) == AllWrapperEdges(w[..4]) + WrapperEdges(Tremolo);
    assert w[..6][..5] == w[..5];
    assert AllWrapperEdges(w[..6]) == AllWrapperEdges(w[..5]) + WrapperEdges(Delay);
    assert w[..7][..6] == w[..6];
    assert AllWrapperEdges(w[..7]) == AllWrapperEdges(w[..6]) + WrapperEdges(Wah);
    assert w[..8] == w;
    assert AllWrapperEdges(w) == AllWrapperEdges(w[..7]) + WrapperEdges(Reverb);
  }

  /** The node the chain loop holds as `prev` after visiting `stages`. */
  function ChainTail(stages: seq<Effect>): Node
  {
    if stages == [] then Source else StageOut(stages[|stages| - 1])
  }

  /** `prev.connect(fx.input); prev = fx.output` for each stage in turn, starting from the source. */
  function ChainEdges(stages: seq<Effect>): (r: seq<Edge>)
    ensures |r| == |stages|
  {
    if stages == [] then [] else ChainEdges(stages[..|stages| - 1]) + [Edge(ChainTail(stages[..|stages| - 1]), StageIn(stages[|stages| - 1]), 0)]
  }

  /** The chain's i-th edge enters stage i from the stage before it (the source for the first). */
  lemma {:induction false} ChainEdgeAt(stages: seq<Effect>, i: int)
    requires 0 <= i < |stages|
    ensures ChainEdges(stages)[i] == Edge(if i == 0 then Source else StageOut(stages[i - 1]), StageIn(stages[i]), 0)
  {
    var n := |stages| - 1;
    if i < n {
      ChainEdgeAt(stages[..n], i);
      assert stages[..n][i] == stages[i];
      if i > 0 {
        assert stages[..n][i - 1] == stages[i - 1];
      }
    } else if n > 0 {
      assert stages[..n][n - 1] == stages[n - 1];
    }
  }

  /** The outputs after the chain: last stage -> master, master -> both merger inputs -> speakers. */
  const OutputEdges: seq<Edge> :=
    [Edge(StageOut(Reverb), Master, 0), Edge(Master, Merger, 0), Edge(Master, Merger, 1), Edge(Merger, Destination, 0)]

  /** Everything `buildEffectsChain` connects, in order: the analyser tap, the eight wrappers,
      the series chain and the outputs. The effects' own wet chains are not part of this list. */
  function BuildEdges(): seq<Edge>
  {
    [Edge(Source, Analyser, 0)] + AllWrapperEdges(ChainOrder) + ChainEdges(ChainOrder) + OutputEdges
  }

  /** The wiring is the fixed series compressor -> drive -> ... -> reverb -> master with master on
      both merger channels, and the analyser is a tap: nothing leaves it. */
  lemma BuildWiresTheChain()
    ensures Edge(Source, StageIn(Compressor), 0) in BuildEdges()
    ensures forall i :: 0 <= i < |ChainOrder| - 1 ==> Edge(StageOut(ChainOrder[i]), StageIn(ChainOrder[i + 1]), 0) in BuildEdges()
    ensures Edge(StageOut(Reverb), Master, 0) in BuildEdges()
    ensures Edge(Master, Merger, 0) in BuildEdges() && Edge(Master, Merger, 1) in BuildEdges()
    ensures Edge(Merger, Destination, 0) in BuildEdges()
    ensures forall ed :: ed in BuildEdges() ==> ed.from != Analyser
  {
    SeriesLinksInBuild();
    OutputsInBuild();
    AnalyserIsATap();
  }

  lemma SeriesLinksInBuild()
    ensures Edge(Source, StageIn(Compressor), 0) in BuildEdges()
    ensures forall i :: 0 <= i < |ChainOrder| - 1 ==> Edge(StageOut(ChainOrder[i]), StageIn(ChainOrder[i + 1]), 0) in BuildEdges()
  {
    var pre := [Edge(Source, Analyser, 0)] + AllWrapperEdges(ChainOrder);
    assert BuildEdges() == pre + ChainEdges(ChainOrder) + OutputEdges;
    ChainEdgeAt(ChainOrder, 0);
    assert BuildEdges()[|pre|] == ChainEdges(ChainOrder)[0];
    forall i | 0 <= i < |ChainOrder| - 1
      ensures Edge(StageOut(ChainOrder[i]), StageIn(ChainOrder[i + 1]), 0) in BuildEdges()
    {
      ChainEdgeAt(ChainOrder, i + 1);
      assert BuildEdges()[|pre| + i + 1] == ChainEdges(ChainOrder)[i + 1];
    }
  }

  lemma OutputsInBuild()
    ensures Edge(StageOut(Reverb), Master, 0) in BuildEdges()
    ensures Edge(Master, Merger, 0) in BuildEdges() && Edge(Master, Merger, 1) in BuildEdges()
    ensures Edge(Merger, Destination, 0) in BuildEdges()
  {
    var pre := [Edge(Source, Analyser, 0)] + AllWrapperEdges(ChainOrder) + ChainEdges(ChainOrder);
    assert BuildEdges() == pre + OutputEdges;
    assert BuildEdges()[|pre|] == OutputEdges[0];
    assert BuildEdges()[|pre| + 1] == OutputEdges[1];
    assert BuildEdges()[|pre| + 2] == OutputEdges[2];
    assert BuildEdges()[|pre| + 3] == OutputEdges[3];
  }

  lemma AnalyserIsATap()
    ensures forall ed :: ed in BuildEdges() ==> ed.from != Analyser
  {
    TapBeforeOutputs();
    OutputsLeaveNoAnalyser();
    NothingLeavesConcat([Edge(Source, Analyser, 0)] + AllWrapperEdges(ChainOrder) + ChainEdges(ChainOrder), OutputEdges, Analyser);
  }

  lemma OutputsLeaveNoAnalyser()
    ensures NothingLeaves(OutputEdges, Analyser)
  {
  }

  lemma TapBeforeOutputs()
    ensures NothingLeaves([Edge(Source, Analyser, 0)] + AllWrapperEdges(ChainOrder) + ChainEdges(ChainOrder), Analyser)
  {
    TapAndWrappers();
    ChainNeverLeavesAnalyser(ChainOrder);
    NothingLeavesConcat([Edge(Source, Analyser, 0)] + AllWrapperEdges(ChainOrder), ChainEdges(ChainOrder), Analyser);
  }

  lemma TapAndWrappers()
    ensures NothingLeaves([Edge(Source, Analyser, 0)] + AllWrapperEdges(ChainOrder), Analyser)
  {
    NoEdgeLeavesAnalyser(ChainOrder);
    assert NothingLeaves([Edge(Source, Analyser, 0)], Analyser);
    NothingLeavesConcat([Edge(Source, Analyser, 0)], AllWrapperEdges(ChainOrder), Analyser);
  }

  ghost predicate NothingLeaves(edges: seq<Edge>, n: Node)
  {
    forall ed :: ed in edges ==> ed.from != n
  }

  lemma NothingLeavesConcat(a: seq<Edge>, b: seq<Edge>, n: Node)
    requires NothingLeaves(a, n) && NothingLeaves(b, n)
    ensures NothingLeaves(a + b, n)
  {
  }

  lemma {:induction false} NoEdgeLeavesAnalyser(stages: seq<Effect>)
    ensures forall ed :: ed in AllWrapperEdges(stages) ==> ed.from != Analyser
  {
    if stages != [] {
      NoEdgeLeavesAnalyser(stages[..|stages| - 1]);
    }
  }

  lemma {:induction false} ChainNeverLeavesAnalyser(stages: seq<Effect>)
    ensures forall ed :: ed in ChainEdges(stages) ==> ed.from != Analyser
  {
    if stages != [] {
      ChainNeverLeavesAnalyser(stages[..|stages| - 1]);
    }
  }

  // ---------------------------------------------------------------- node settings

  /** The values written into the native nodes that the live-update effect can reach, plus the
      delay and reverb wet levels and reverb feedback, which only a build writes. */
  datatype NodeSettings = NodeSettings(
    compThreshold: real, compRatio: real, compAttack: real, compRelease: real, compKnee: real,
    driveCurve: array<real>, driveToneHz: real,
    distPreGain: real, distCurve: array<real>, distToneHz: real,
    chorusDelay: real, chorusRate: real, chorusDepth: real, chorusFeedback: real,
    tremoloRate: real, tremoloDepth: real, tremoloGain: real,
    delayTime: real, delayFeedback: real, delayMix: real,
    wahHz: real, wahQ: real,
    reverbFeedback: real, reverbMix: real)

  const CompressorKnee: real := 5.0
  const DistortionPreGain: real := 4.0
  const ChorusBaseDelay: real := 0.005
  /** The four reverb delay taps and their low-pass corner. */
  const ReverbTaps: seq<real> := [0.0297, 0.0371, 0.0411, 0.0437]
  const ReverbLowpassHz: real := 4000.0

  function DriveToneHz(tone: real): real { 3000.0 + tone * 5000.0 }
  function DistToneHz(tone: real): real { 2000.0 + tone * 6000.0 }
  function WahHz(frequency: real): real { 200.0 + frequency * 2000.0 }

  /** The knob range `[0, 1]` sweeps the drive tone over 3-8 kHz, the distortion tone over 2-8 kHz
      and the wah centre over 200-2200 Hz, each increasing. */
  lemma {:induction false} FilterSweeps(t: real, u: real)
    requires 0.0 <= t <= u <= 1.0
    ensures 3000.0 <= DriveToneHz(t) <= DriveToneHz(u) <= 8000.0
    ensures 2000.0 <= DistToneHz(t) <= DistToneHz(u) <= 8000.0
    ensures 200.0 <= WahHz(t) <= WahHz(u) <= 2200.0
  {
  }

  /** The settings a build writes, given the two shaping curves it obtained. */
  function BuiltSettings(p: Params, driveCurve: array<real>, distCurve: array<real>): (n: NodeSettings)
    requires WellFormed(p)
    ensures n.driveCurve == driveCurve && n.distCurve == distCurve
  {
    NodeSettings(
      Field(p, Compressor, "threshold"), Field(p, Compressor, "ratio"), Field(p, Compressor, "attack"),
      Field(p, Compressor, "release"), CompressorKnee,
      driveCurve, DriveToneHz(Field(p, Drive, "tone")),
      DistortionPreGain, distCurve, DistToneHz(Field(p, Distortion, "tone")),
      ChorusBaseDelay, Field(p, Chorus, "rate"), Field(p, Chorus, "depth") * 0.003, Field(p, Chorus, "feedback") * 0.7,
      Field(p, Tremolo, "rate"), Field(p, Tremolo, "depth"), 1.0,
      Field(p, Delay, "time"), Field(p, Delay, "feedback"), Field(p, Delay, "mix"),
      WahHz(Field(p, Wah, "frequency")), Field(p, Wah, "resonance"),
      Field(p, Reverb, "decay") * 0.75, Field(p, Reverb, "mix"))
  }

  /** The live-update effect: every reachable node takes its value from the current parameters;
      the delay wet gain, the reverb feedback gains and the reverb wet gain are not among them. */
  function Refreshed(n: NodeSettings, p: Params, driveCurve: array<real>, distCurve: array<real>): NodeSettings
    requires WellFormed(p)
  {
    var b := BuiltSettings(p, driveCurve, distCurve);
    b.(delayMix := n.delayMix, reverbFeedback := n.reverbFeedback, reverbMix := n.reverbMix)
  }

  /** A live update agrees with a rebuild from the same parameters except on the three wet-path
      values, which keep what the last build wrote; and repeating it changes nothing. */
  lemma {:induction false} LiveUpdateMatchesRebuild(n: NodeSettings, p: Params, c1: array<real>, c2: array<real>)
    requires WellFormed(p)
    ensures var r := Refreshed(n, p, c1, c2);
      && r.(delayMix := 0.0, reverbFeedback := 0.0, reverbMix := 0.0) == BuiltSettings(p, c1, c2).(delayMix := 0.0, reverbFeedback := 0.0, reverbMix := 0.0)
      && r.delayMix == n.delayMix && r.reverbFeedback == n.reverbFeedback && r.reverbMix == n.reverbMix
      && Refreshed(r, p, c1, c2) == r
  {
  }

  /** Changing delay mix, reverb decay or reverb mix while connected reaches no node until the
      next build. */
  lemma {:induction false} WetMixChangesAreNotLive(n: NodeSettings, p: Params, e: Effect, f: string, v: real, c1: array<real>, c2: array<real>)
    requires WellFormed(p)
    requires (e == Delay && f == "mix") || (e == Reverb && (f == "decay" || f == "mix"))
    ensures WellFormed(UpdatedParams(p, EffectKey(e), f, v))
    ensures Refreshed(n, UpdatedParams(p, EffectKey(e), f, v), c1, c2) == Refreshed(n, p, c1, c2)
  {
    UpdateParamKeepsShape(p, EffectKey(e), f, v);
    EffectKeysDistinct();
    var q := UpdatedParams(p, EffectKey(e), f, v);
    assert forall e2: Effect :: e2 != e ==> q[EffectKey(e2)] == p[EffectKey(e2)];
    if e == Delay {
      DelayMixIsNotLive(n, p, q, v, c1, c2);
    } else if f == "decay" {
      ReverbFieldIsNotLive(n, p, q, "decay", "mix", v, c1, c2);
    } else {
      ReverbFieldIsNotLive(n, p, q, "mix", "decay", v, c1, c2);
    }
  }

  lemma DelayMixIsNotLive(n: NodeSettings, p: Params, q: Params, v: real, c1: array<real>, c2: array<real>)
    requires WellFormed(p) && WellFormed(q)
    requires forall e2: Effect :: e2 != Delay ==> q[EffectKey(e2)] == p[EffectKey(e2)]
    requires q[EffectKey(Delay)] == Group(p[EffectKey(Delay)].fields["mix" := v])
    ensures Refreshed(n, q, c1, c2) == Refreshed(n, p, c1, c2)
  {
    assert Field(q, Delay, "time") == Field(p, Delay, "time");
    assert Field(q, Delay, "feedback") == Field(p, Delay, "feedback");
  }

  lemma ReverbFieldIsNotLive(n: NodeSettings, p: Params, q: Params, f: string, other: string, v: real, c1: array<real>, c2: array<real>)
    requires WellFormed(p) && WellFormed(q) && {f, other} == FieldNames(Reverb) && f != other
    requires forall e2: Effect :: e2 != Reverb ==> q[EffectKey(e2)] == p[EffectKey(e2)]
    requires q[EffectKey(Reverb)] == Group(p[EffectKey(Reverb)].fields[f := v])
    ensures Refreshed(n, q, c1, c2) == Refreshed(n, p, c1, c2)
  {
  }
}
