/** The built-in preset table and its two lookups: the presets of a category, in table order,
    and the first preset with a given id. */
module Presets {
  import opened Numerics
  import opened EngineGraph

  datatype Category = Rock | Blues | Metal | Clean | Ambient | Custom

  /** A preset: the pedals it switches (a partial `PedalState`) and the parameter objects it
      sets (a partial `PedalParams`, with its `volume`). */
  datatype Preset = Preset(
    id: string, name: string, description: string, category: Category,
    pedalState: map<Effect, bool>, params: Params)

  function Switches(compressor: bool, drive: bool, chorus: bool, tremolo: bool, delay: bool, wah: bool, reverb: bool): map<Effect, bool>
  {
    map[Compressor := compressor, Drive := drive, Chorus := chorus, Tremolo := tremolo,
        Delay := delay, Wah := wah, Reverb := reverb]
  }

  function CompressorAt(threshold: real, ratio: real, attack: real, release: real): ParamEntry
  {
    Group(map["threshold" := threshold, "ratio" := ratio, "attack" := attack, "release" := release])
  }

  const CleanTone: Preset :=
    Preset("clean", "Clean", "Cristalino, sem efeitos", Clean,
      Switches(true, false, false, false, false, false, true),
      map["compressor" := CompressorAt(-20.0, 4.0, 0.003, 0.25),
          "reverb" := Group(map["decay" := 0.3, "mix" := 0.2]),
          VolumeKey := Scalar(0.8)])

  const BrownSound: Preset :=
    Preset("van-halen", "Brown Sound", "Eddie Van Halen - Hard Rock clássico", Rock,
      Switches(true, true, true, false, true, false, true),
      map["compressor" := CompressorAt(-15.0, 6.0, 0.002, 0.2),
          "drive" := Group(map["gain" := 0.75, "tone" := 0.65]),
          "chorus" := Group(map["rate" := 0.8, "depth" := 0.3, "feedback" := 0.2]),
          "delay" := Group(map["time" := 0.35, "feedback" := 0.3, "mix" := 0.25]),
          "reverb" := Group(map["decay" := 0.4, "mix" := 0.3]),
          VolumeKey := Scalar(0.85)])

  const HardRock: Preset :=
    Preset("hard-rock", "Hard Rock", "AC/DC, Guns N' Roses style", Rock,
      Switches(true, true, false, false, false, false, true),
      map["compressor" := CompressorAt(-18.0, 5.0, 0.003, 0.25),
          "drive" := Group(map["gain" := 0.65, "tone" := 0.7]),
          "reverb" := Group(map["decay" := 0.35, "mix" := 0.25]),
          VolumeKey := Scalar(0.85)])

  const MetalTone: Preset :=
    Preset("metal", "Metal", "High gain agressivo", Metal,
      Switches(true, true, false, false, false, false, true),
      map["compressor" := CompressorAt(-12.0, 8.0, 0.001, 0.15),
          "drive" := Group(map["gain" := 0.95, "tone" := 0.55]),
          "reverb" := Group(map["decay" := 0.25, "mix" := 0.15]),
          VolumeKey := Scalar(0.9)])

  const BluesTone: Preset :=
    Preset("blues", "Blues", "Tone quente e expressivo", Blues,
      Switches(true, true, false, false, true, false, true),
      map["compressor" := CompressorAt(-25.0, 3.0, 0.005, 0.3),
          "drive" := Group(map["gain" := 0.4, "tone" := 0.45]),
          "delay" := Group(map["time" := 0.25, "feedback" := 0.2, "mix" := 0.2]),
          "reverb" := Group(map["decay" := 0.5, "mix" := 0.35]),
          VolumeKey := Scalar(0.75)])

  const AmbientTone: Preset :=
    Preset("ambient", "Ambient", "Espacial e atmosférico", Ambient,
      Switches(true, false, true, true, true, false, true),
      map["compressor" := CompressorAt(-30.0, 2.0, 0.01, 0.5),
          "chorus" := Group(map["rate" := 0.5, "depth" := 0.6, "feedback" := 0.4]),
          "tremolo" := Group(map["rate" := 2.0, "depth" := 0.3]),
          "delay" := Group(map["time" := 0.5, "feedback" := 0.5, "mix" := 0.45]),
          "reverb" := Group(map["decay" := 0.8, "mix" := 0.6]),
          VolumeKey := Scalar(0.7)])

  const FunkWah: Preset :=
    Preset("funk-wah", "Funk Wah", "Groove com wah expressivo", Clean,
      Switches(true, false, false, false, false, true, false),
      map["compressor" := CompressorAt(-20.0, 4.0, 0.002, 0.2),
          "wah" := Group(map["frequency" := 0.5, "resonance" := 15.0]),
          VolumeKey := Scalar(0.8)])

  /** `presets`, in table order. */
  const Table: seq<Preset> := [CleanTone, BrownSound, HardRock, MetalTone, BluesTone, AmbientTone, FunkWah]

  /** The one-entry filter. */
  function Only(p: Preset, c: Category): seq<Preset>
  {
    if p.category == c then [p] else []
  }

  /** `ps.filter(p => p.category === c)`. */
  function Filter(ps: seq<Preset>, c: Category): (r: seq<Preset>)
    ensures |r| <= |ps|
  {
    if ps == [] then [] else Filter(ps[..|ps| - 1], c) + Only(ps[|ps| - 1], c)
  }

  /** The filter keeps exactly the entries of its category. */
  lemma {:induction false} FilterMembers(ps: seq<Preset>, c: Category)
    ensures forall p :: p in Filter(ps, c) <==> p in ps && p.category == c
  {
    if ps != [] {
      FilterMembers(ps[..|ps| - 1], c);
      assert forall p :: p in ps <==> p in ps[..|ps| - 1] || p == ps[|ps| - 1];
    }
  }

  /** The filter keeps table order: filtering a concatenation filters each part. */
  lemma {:induction false} FilterDistributes(a: seq<Preset>, b: seq<Preset>, c: Category)
    ensures Filter(a + b, c) == Filter(a, c) + Filter(b, c)
    decreases |b|
  {
    if b == [] {
      assert a + b == a;
    } else {
      var init := b[..|b| - 1];
      var last := b[|b| - 1];
      FilterAppendOne(a, b, c);
      FilterDistributes(a, init, c);
      assert Filter(a, c) + Filter(init, c) + Only(last, c) == Filter(a, c) + (Filter(init, c) + Only(last, c));
    }
  }

  lemma {:induction false} FilterAppendOne(a: seq<Preset>, b: seq<Preset>, c: Category)
    requires b != []
    ensures Filter(a + b, c) == Filter(a + b[..|b| - 1], c) + Only(b[|b| - 1], c)
  {
    assert (a + b)[..|a + b| - 1] == a + b[..|b| - 1];
    assert (a + b)[|a + b| - 1] == b[|b| - 1];
  }

  /** `getPresetsByCategory`. */
  function PresetsByCategory(c: Category): (r: seq<Preset>)
    ensures forall p :: p in r <==> p in Table && p.category == c
  {
    FilterMembers(Table, c);
    Filter(Table, c)
  }

  lemma {:induction false} CountStep(ps: seq<Preset>, k: nat, c: Category)
    requires k < |ps|
    ensures |Filter(ps[..k + 1], c)| == |Filter(ps[..k], c)| + (if ps[k].category == c then 1 else 0)
  {
    assert ps[..k + 1][..k] == ps[..k];
  }

  /** How many of the first `k` entries carry the category. */
  function Matches(ps: seq<Preset>, c: Category, k: nat): nat
    requires k <= |ps|
  {
    if k == 0 then 0 else Matches(ps, c, k - 1) + (if ps[k - 1].category == c then 1 else 0)
  }

  lemma {:induction false} CountPrefix(ps: seq<Preset>, c: Category, k: nat)
    requires k <= |ps|
    ensures |Filter(ps[..k], c)| == Matches(ps, c, k)
  {
    if k == 0 {
      assert ps[..0] == [];
    } else {
      CountPrefix(ps, c, k - 1);
      CountStep(ps, k - 1, c);
    }
  }

  /** How many table entries carry each category. */
  function Tally(c: Category): nat
  {
    match c
    case Rock => 2
    case Clean => 2
    case Blues => 1
    case Metal => 1
    case Ambient => 1
    case Custom => 0
  }

  /** Each category list has its tally of entries; `custom` has none. */
  lemma {:induction false} CategoryCount(c: Category)
    ensures |PresetsByCategory(c)| == Tally(c)
    ensures c == Custom ==> PresetsByCategory(c) == []
  {
    CountPrefix(Table, c, 7);
    assert Table[..7] == Table;
    TableMatches(c);
  }

  lemma {:induction false} TableMatches(c: Category)
    ensures Matches(Table, c, 7) == Tally(c)
  {
    var cats := [Clean, Rock, Rock, Metal, Blues, Ambient, Clean];
    assert forall i :: 0 <= i < 7 ==> Table[i].category == cats[i];
    var ones := seq(7, i requires 0 <= i < 7 => if cats[i] == c then 1 else 0);
    assert Matches(Table, c, 1) == ones[0];
    assert Matches(Table, c, 2) == ones[0] + ones[1];
    assert Matches(Table, c, 3) == ones[0] + ones[1] + ones[2];
    assert Matches(Table, c, 4) == ones[0] + ones[1] + ones[2] + ones[3];
    assert Matches(Table, c, 5) == ones[0] + ones[1] + ones[2] + ones[3] + ones[4];
    assert Matches(Table, c, 6) == ones[0] + ones[1] + ones[2] + ones[3] + ones[4] + ones[5];
    assert Matches(Table, c, 7) == ones[0] + ones[1] + ones[2] + ones[3] + ones[4] + ones[5] + ones[6];
  }

  /** The category lists partition the table: every entry is in the list of its own category
      only, and the list sizes add up to the table's. */
  lemma {:induction false} CategoriesPartition()
    ensures forall p, c :: p in Table ==> (p in PresetsByCategory(c) <==> c == p.category)
    ensures |PresetsByCategory(Rock)| + |PresetsByCategory(Blues)| + |PresetsByCategory(Metal)|
          + |PresetsByCategory(Clean)| + |PresetsByCategory(Ambient)| + |PresetsByCategory(Custom)| == |Table|
  {
    CategoryCount(Rock);
    CategoryCount(Blues);
    CategoryCount(Metal);
    CategoryCount(Clean);
    CategoryCount(Ambient);
    CategoryCount(Custom);
  }

  /** `ps.find(p => p.id === id)`: the first entry with that id, or nothing. */
  function Find(ps: seq<Preset>, id: string): (r: Option<Preset>)
    ensures r.None? <==> forall p :: p in ps ==> p.id != id
    ensures r.Some? ==> exists i :: 0 <= i < |ps| && ps[i] == r.value && ps[i].id == id &&
                                   forall j :: 0 <= j < i ==> ps[j].id != id
  {
    if ps == [] then None
    else if ps[0].id == id then Some(ps[0])
    else
      var r := Find(ps[1..], id);
      assert forall p :: p in ps <==> p == ps[0] || p in ps[1..];
      if r.Some? then
        var i :| 0 <= i < |ps[1..]| && ps[1..][i] == r.value && ps[1..][i].id == id &&
                 forall j :: 0 <= j < i ==> ps[1..][j].id != id;
        assert ps[i + 1] == r.value;
        r
      else r
  }

  /** `getPresetById`. */
  function PresetById(id: string): (r: Option<Preset>)
    ensures r.None? <==> forall p :: p in Table ==> p.id != id
    ensures r.Some? ==> r.value in Table && r.value.id == id
  {
    Find(Table, id)
  }

  /** The position of an id in the table, read off its first letter (the seven differ). */
  function Rank(id: string): int
  {
    if id == [] then -1
    else match id[0]
      case 'c' => 0
      case 'v' => 1
      case 'h' => 2
      case 'm' => 3
      case 'b' => 4
      case 'a' => 5
      case 'f' => 6
      case _ => -1
  }

  lemma {:induction false} RanksArePositions()
    ensures forall i :: 0 <= i < |Table| ==> Rank(Table[i].id) == i
  {
    assert Rank(Table[0].id) == 0 && Rank(Table[1].id) == 1 && Rank(Table[2].id) == 2 && Rank(Table[3].id) == 3;
    assert Rank(Table[4].id) == 4 && Rank(Table[5].id) == 5 && Rank(Table[6].id) == 6;
  }

  /** The table's ids are distinct, so looking up any entry's id gives that entry back. */
  lemma {:induction false} IdsAreDistinct()
    ensures forall i, j :: 0 <= i < j < |Table| ==> Table[i].id != Table[j].id
    ensures forall p :: p in Table ==> PresetById(p.id) == Some(p)
  {
    RanksArePositions();
    forall p | p in Table
      ensures PresetById(p.id) == Some(p)
    {
      var r := PresetById(p.id);
      var i :| 0 <= i < |Table| && Table[i] == r.value && Table[i].id == p.id;
      var k :| 0 <= k < |Table| && Table[k] == p;
      assert Rank(Table[i].id) == Rank(Table[k].id);
    }
  }

  /** Every preset sets a master volume in `(0, 1]`. */
  lemma {:induction false} VolumesInRange()
    ensures forall p :: p in Table ==>
              VolumeKey in p.params && p.params[VolumeKey].Scalar? && 0.0 < p.params[VolumeKey].value <= 1.0
  {
    var vols := [0.8, 0.85, 0.85, 0.9, 0.75, 0.7, 0.8];
    forall i | 0 <= i < |Table|
      ensures VolumeKey in Table[i].params && Table[i].params[VolumeKey] == Scalar(vols[i])
    {
    }
  }
}
