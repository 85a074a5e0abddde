/** The custom-pedal library page: validation of an uploaded pedal class, and the library list
    operations (add, show/hide, on/off the board, delete, save an edit).

    The JavaScript regular expressions are not modelled; each is a parameter (`Patterns`) that
    answers whether, and with what capture, its pattern matches. `code.includes` is modelled
    exactly as a substring test. */
module PedalManager {
  import opened Numerics

  /** A parameter row the pedal exposes to its knobs. */
  datatype Param = Param(id: string, caption: string, min: real, max: real, initial: real, unit: string)

  /** One `matchAll` hit of the parameter-object pattern: its six captures, numbers still text. */
  datatype ParamMatch = ParamMatch(id: string, caption: string, min: string, max: string, initial: string, unit: string)

  /** The regular-expression tests `validatePedalCode` makes:
      - `hasClass`: `/class\s+(\w+)\s*{/` matches;
      - `hasMethod(code, m)`: `(static\s+)?m\s*\(` matches;
      - `metadataBlock`: the object literal returned by `getMetadata()`, when found;
      - `field(block, key)`: the quoted value after `key:` in that block, when found;
      - `paramsBlock`: the array literal returned by `getParams()`, when found;
      - `paramMatches`: the parameter objects found in that array, in order;
      - `parseFloat`: JavaScript's `parseFloat` on a captured number. */
  datatype Patterns = Patterns(
    hasClass: string -> bool,
    hasMethod: (string, string) -> bool,
    metadataBlock: string -> Option<string>,
    field: (string, string) -> Option<string>,
    paramsBlock: string -> Option<string>,
    paramMatches: string -> seq<ParamMatch>,
    parseFloat: string -> real)

  /** The errors, in the order they can be pushed. */
  datatype Issue = NoClass | MissingMethod(name: string) | NoInput | NoOutput | NoMetadata

  /** The two advisory warnings. */
  datatype Caution = NoExportDefault | NoParams

  datatype Metadata = Metadata(
    name: string, subtitle: string, color: string, glowColor: string, author: string, version: string)

  /** `ValidationResult`. */
  datatype Validation = Validation(
    isValid: bool, errors: seq<Issue>, cautions: seq<Caution>,
    metadata: Option<Metadata>, params: Option<seq<Param>>)

  const RequiredMethods: seq<string> := ["constructor", "configure", "connect", "getParams", "getMetadata", "setParam"]

  /** The text each error and warning is shown with. */
  function IssueText(i: Issue): string
  {
    match i
    case NoClass => "Nenhuma classe encontrada. O arquivo deve definir uma classe."
    case MissingMethod(m) => "Método obrigatório '" + m + "' não encontrado."
    case NoInput => "Node 'this.input' não encontrado no constructor."
    case NoOutput => "Node 'this.output' não encontrado no constructor."
    case NoMetadata => "Não foi possível extrair metadados do getMetadata()."
  }

  function CautionText(c: Caution): string
  {
    match c
    case NoExportDefault => "Recomendado: adicione 'export default' no final."
    case NoParams => "Nenhum parâmetro encontrado em getParams(). O pedal não terá knobs."
  }

  /** `t` occurs in `s` starting at index `i`. */
  predicate OccursAt(s: string, t: string, i: int)
  {
    0 <= i <= |s| - |t| && s[i..i + |t|] == t
  }

  /** `s.includes(t)`. */
  predicate Includes(s: string, t: string)
  {
    exists i :: 0 <= i <= |s| - |t| && OccursAt(s, t, i)
  }

  /** The error for each name in `names` the code lacks, in list order. */
  function MissingMethods(p: Patterns, code: string, names: seq<string>): (e: seq<Issue>)
    ensures |e| <= |names|
    ensures forall x :: x in e ==> x.MissingMethod? && x.name in names && !p.hasMethod(code, x.name)
    ensures forall m :: m in names && !p.hasMethod(code, m) ==> MissingMethod(m) in e
  {
    if names == [] then []
    else
      var last := names[|names| - 1];
      MissingMethods(p, code, names[..|names| - 1]) + (if p.hasMethod(code, last) then [] else [MissingMethod(last)])
  }

  /** A captured field, or the fallback when there is no match or the capture is empty (`||`). */
  function FieldOr(capture: Option<string>, fallback: string): (s: string)
    ensures capture.Some? && capture.value != "" ==> s == capture.value
    ensures capture.None? || capture.value == "" ==> s == fallback
  {
    if capture.Some? && capture.value != "" then capture.value else fallback
  }

  /** The metadata object, every missing field taking its default; none without a block. */
  function MetadataOf(p: Patterns, code: string): (m: Option<Metadata>)
    ensures m.Some? <==> p.metadataBlock(code).Some?
  {
    match p.metadataBlock(code)
    case None => None
    case Some(block) =>
      Some(Metadata(
        FieldOr(p.field(block, "name"), "CUSTOM"),
        FieldOr(p.field(block, "subtitle"), "Effect"),
        FieldOr(p.field(block, "color"), "hsl(280, 70%, 50%)"),
        FieldOr(p.field(block, "glowColor"), "hsl(280, 80%, 60%)"),
        FieldOr(p.field(block, "author"), "Unknown"),
        FieldOr(p.field(block, "version"), "1.0.0")))
  }

  function ParsedParam(p: Patterns, m: ParamMatch): Param
  {
    Param(m.id, m.caption, p.parseFloat(m.min), p.parseFloat(m.max), p.parseFloat(m.initial), m.unit)
  }

  function ParsedRows(p: Patterns, ms: seq<ParamMatch>): (rows: seq<Param>)
    ensures |rows| == |ms| && forall i :: 0 <= i < |ms| ==> rows[i] == ParsedParam(p, ms[i])
  {
    seq(|ms|, i requires 0 <= i < |ms| => ParsedParam(p, ms[i]))
  }

  /** The parameter rows, one per match, in match order; none without an array. */
  function ParamsOf(p: Patterns, code: string): (r: Option<seq<Param>>)
    ensures r.Some? <==> p.paramsBlock(code).Some?
    ensures r.Some? ==> var ms := p.paramMatches(p.paramsBlock(code).value);
      |r.value| == |ms| && forall i :: 0 <= i < |ms| ==> r.value[i] == ParsedParam(p, ms[i])
  {
    match p.paramsBlock(code)
    case None => None
    case Some(block) =>
      Some(ParsedRows(p, p.paramMatches(block)))
  }

  /** The errors after the class check passed: missing methods, then the two nodes, then the
      metadata. */
  function ErrorsOf(p: Patterns, code: string): seq<Issue>
  {
    MissingMethods(p, code, RequiredMethods)
      + (if Includes(code, "this.input") then [] else [NoInput])
      + (if Includes(code, "this.output") then [] else [NoOutput])
      + (if MetadataOf(p, code).Some? then [] else [NoMetadata])
  }

  function CautionsOf(p: Patterns, code: string): seq<Caution>
  {
    var params := ParamsOf(p, code);
    (if Includes(code, "export default") then [] else [NoExportDefault])
      + (if params.Some? && |params.value| > 0 then [] else [NoParams])
  }

  /** What `validatePedalCode(code)` returns. */
  function ValidationOf(p: Patterns, code: string): (v: Validation)
    ensures v.isValid <==> v.errors == []
  {
    if !p.hasClass(code) then Validation(false, [NoClass], [], None, None)
    else
      var errors := ErrorsOf(p, code);
      Validation(|errors| == 0, errors, CautionsOf(p, code), MetadataOf(p, code), ParamsOf(p, code))
  }

  /** The loop over the required method names. */
  method CheckRequiredMethods(p: Patterns, code: string) returns (errors: seq<Issue>)
    ensures errors == MissingMethods(p, code, RequiredMethods)
  {
    errors := [];
    for k := 0 to |RequiredMethods|
      invariant errors == MissingMethods(p, code, RequiredMethods[..k])
    {
      MissingMethodsStep(p, code, RequiredMethods, k);
      if !p.hasMethod(code, RequiredMethods[k]) {
        errors := errors + [MissingMethod(RequiredMethods[k])];
      }
    }
    assert RequiredMethods[..|RequiredMethods|] == RequiredMethods;
  }

  /** One more name checked: its error, if any, goes after the earlier ones. */
  lemma MissingMethodsStep(p: Patterns, code: string, names: seq<string>, k: nat)
    requires k < |names|
    ensures MissingMethods(p, code, names[..k + 1]) ==
            MissingMethods(p, code, names[..k]) + (if p.hasMethod(code, names[k]) then [] else [MissingMethod(names[k])])
  {
    assert names[..k + 1][..k] == names[..k];
  }

  /** The loop over the `matchAll` hits, pushing one parameter row per hit. */
  method ExtractParams(p: Patterns, code: string) returns (params: Option<seq<Param>>)
    ensures params == ParamsOf(p, code)
  {
    var block := p.paramsBlock(code);
    if block.None? {
      return None;
    }
    var ms := p.paramMatches(block.value);
    var rows: seq<Param> := [];
    for i := 0 to |ms|
      invariant |rows| == i
      invariant forall j :: 0 <= j < i ==> rows[j] == ParsedParam(p, ms[j])
    {
      rows := rows + [ParsedParam(p, ms[i])];
    }
    assert rows == ParsedRows(p, ms);
    params := Some(rows);
  }

  /** The error pushes after the class check: methods, nodes, then metadata. */
  method CollectErrors(p: Patterns, code: string, metadata: Option<Metadata>) returns (errors: seq<Issue>)
    requires metadata == MetadataOf(p, code)
    ensures errors == ErrorsOf(p, code)
  {
    errors := CheckRequiredMethods(p, code);
    if !Includes(code, "this.input") {
      errors := errors + [NoInput];
    }
    if !Includes(code, "this.output") {
      errors := errors + [NoOutput];
    }
    if metadata.None? {
      errors := errors + [NoMetadata];
    }
  }

  /** The warning pushes: the export, then the parameter list. */
  method CollectCautions(p: Patterns, code: string, params: Option<seq<Param>>) returns (cautions: seq<Caution>)
    requires params == ParamsOf(p, code)
    ensures cautions == CautionsOf(p, code)
  {
    cautions := [];
    if !Includes(code, "export default") {
      cautions := cautions + [NoExportDefault];
    }
    if params.None? || |params.value| == 0 {
      cautions := cautions + [NoParams];
    }
  }

  /** `validatePedalCode`: the checks push errors and warnings in order. */
  method ValidatePedalCode(p: Patterns, code: string) returns (v: Validation)
    ensures v == ValidationOf(p, code)
  {
    if !p.hasClass(code) {
      return Validation(false, [NoClass], [], None, None);
    }
    var metadata := MetadataOf(p, code);
    var params := ExtractParams(p, code);
    var errors := CollectErrors(p, code, metadata);
    var cautions := CollectCautions(p, code, params);
    return Validation(|errors| == 0, errors, cautions, metadata, params);
  }

  /** Validity is exactly: a class, all six methods, both nodes, and a metadata block. The
      warnings (no `export default`, no parameters) play no part in it. */
  lemma {:induction false} ValidIffComplete(p: Patterns, code: string)
    ensures ValidationOf(p, code).isValid <==>
      && p.hasClass(code)
      && (forall m :: m in RequiredMethods ==> p.hasMethod(code, m))
      && Includes(code, "this.input") && Includes(code, "this.output")
      && p.metadataBlock(code).Some?
  {
    if p.hasClass(code) && forall m :: m in RequiredMethods ==> p.hasMethod(code, m) {
      var e := MissingMethods(p, code, RequiredMethods);
      if e != [] {
        assert e[0] in e;
      }
    }
  }

  /** Without a class the result is invalid with the one error and nothing extracted. */
  lemma {:induction false} NoClassIsOneError(p: Patterns, code: string)
    requires !p.hasClass(code)
    ensures var v := ValidationOf(p, code);
      !v.isValid && v.errors == [NoClass] && v.cautions == [] && v.metadata.None? && v.params.None?
  {
  }

  /** With a class, the errors are the absent required methods in list order, then one for each
      missing node, then one for missing metadata. */
  lemma {:induction false} ErrorsInOrder(p: Patterns, code: string)
    requires p.hasClass(code)
    ensures var v := ValidationOf(p, code);
      var missing := seq(|RequiredMethods|, i requires 0 <= i < |RequiredMethods| => !p.hasMethod(code, RequiredMethods[i]));
      |v.errors| == Count(missing)
        + (if Includes(code, "this.input") then 0 else 1)
        + (if Includes(code, "this.output") then 0 else 1)
        + (if p.metadataBlock(code).Some? then 0 else 1)
  {
    var missing := seq(|RequiredMethods|, i requires 0 <= i < |RequiredMethods| => !p.hasMethod(code, RequiredMethods[i]));
    MissingMethodsCount(p, code, RequiredMethods, missing);
  }

  function Count(bs: seq<bool>): nat
  {
    if bs == [] then 0 else Count(bs[..|bs| - 1]) + (if bs[|bs| - 1] then 1 else 0)
  }

  lemma {:induction false} MissingMethodsCount(p: Patterns, code: string, names: seq<string>, missing: seq<bool>)
    requires |missing| == |names|
    requires forall i :: 0 <= i < |names| ==> missing[i] == !p.hasMethod(code, names[i])
    ensures |MissingMethods(p, code, names)| == Count(missing)
  {
    if names != [] {
      MissingMethodsCount(p, code, names[..|names| - 1], missing[..|missing| - 1]);
    }
  }

  /** A metadata block yields every field, defaults filling the ones it lacks. */
  lemma {:induction false} MetadataDefaults(p: Patterns, code: string)
    requires p.metadataBlock(code).Some?
    ensures var block := p.metadataBlock(code).value;
      var m := MetadataOf(p, code).value;
      && (p.field(block, "name").None? ==> m.name == "CUSTOM")
      && (p.field(block, "subtitle").None? ==> m.subtitle == "Effect")
      && (p.field(block, "color").None? ==> m.color == "hsl(280, 70%, 50%)")
      && (p.field(block, "glowColor").None? ==> m.glowColor == "hsl(280, 80%, 60%)")
      && (p.field(block, "author").None? ==> m.author == "Unknown")
      && (p.field(block, "version").None? ==> m.version == "1.0.0")
      && (p.field(block, "name").Some? && p.field(block, "name").value != "" ==> m.name == p.field(block, "name").value)
  {
  }

  // ----- The library -----

  /** `CustomPedalData`; `createdAt` is the clock reading when it was added. */
  datatype CustomPedal = CustomPedal(
    id: string, name: string, subtitle: string, color: string, glowColor: string,
    author: string, version: string, code: string, params: seq<Param>,
    isHidden: bool, isOnBoard: bool, createdAt: int)

  /** `customPedals.map(p => p.id === id ? { ...p, isHidden: !p.isHidden } : p)`. */
  function ToggleHidden(lib: seq<CustomPedal>, id: string): (r: seq<CustomPedal>)
    ensures |r| == |lib|
    ensures forall i :: 0 <= i < |lib| ==>
              r[i] == if lib[i].id == id then lib[i].(isHidden := !lib[i].isHidden) else lib[i]
  {
    seq(|lib|, i requires 0 <= i < |lib| => if lib[i].id == id then lib[i].(isHidden := !lib[i].isHidden) else lib[i])
  }

  /** `customPedals.map(p => p.id === id ? { ...p, isOnBoard: !p.isOnBoard } : p)`. */
  function ToggleOnBoard(lib: seq<CustomPedal>, id: string): (r: seq<CustomPedal>)
    ensures |r| == |lib|
    ensures forall i :: 0 <= i < |lib| ==>
              r[i] == if lib[i].id == id then lib[i].(isOnBoard := !lib[i].isOnBoard) else lib[i]
  {
    seq(|lib|, i requires 0 <= i < |lib| => if lib[i].id == id then lib[i].(isOnBoard := !lib[i].isOnBoard) else lib[i])
  }

  /** Each toggle undoes itself, and the two touch different flags so their order is irrelevant. */
  lemma {:induction false} TogglesAreInvolutions(lib: seq<CustomPedal>, id: string, other: string)
    ensures ToggleHidden(ToggleHidden(lib, id), id) == lib
    ensures ToggleOnBoard(ToggleOnBoard(lib, id), id) == lib
    ensures ToggleHidden(ToggleOnBoard(lib, id), other) == ToggleOnBoard(ToggleHidden(lib, other), id)
  {
    assert ToggleHidden(ToggleHidden(lib, id), id) == lib;
    assert ToggleOnBoard(ToggleOnBoard(lib, id), id) == lib;
  }

  /** `customPedals.filter(p => p.id !== id)`. */
  function DeletePedal(lib: seq<CustomPedal>, id: string): (r: seq<CustomPedal>)
    ensures |r| <= |lib|
    ensures forall q :: q in r <==> q in lib && q.id != id
  {
    if lib == [] then []
    else
      var rest := DeletePedal(lib[..|lib| - 1], id);
      var last := lib[|lib| - 1];
      assert forall q :: q in lib <==> q in lib[..|lib| - 1] || q == last;
      if last.id == id then rest else rest + [last]
  }

  /** With no entry carrying the id, deleting changes nothing. */
  lemma {:induction false} DeleteAbsentIsIdentity(lib: seq<CustomPedal>, id: string)
    requires forall q :: q in lib ==> q.id != id
    ensures DeletePedal(lib, id) == lib
    decreases |lib|
  {
    if lib != [] {
      var init := lib[..|lib| - 1];
      assert forall q :: q in init ==> q in lib;
      DeleteAbsentIsIdentity(init, id);
      assert lib[|lib| - 1] in lib;
      assert init + [lib[|lib| - 1]] == lib;
    }
  }

  /** Deleting twice is deleting once. */
  lemma {:induction false} DeleteIsIdempotent(lib: seq<CustomPedal>, id: string)
    ensures DeletePedal(DeletePedal(lib, id), id) == DeletePedal(lib, id)
  {
    DeleteAbsentIsIdentity(DeletePedal(lib, id), id);
  }

  /** The filter keeps order: deleting from a concatenation deletes from each part. */
  lemma {:induction false} DeleteDistributes(a: seq<CustomPedal>, b: seq<CustomPedal>, id: string)
    ensures DeletePedal(a + b, id) == DeletePedal(a, id) + DeletePedal(b, id)
    decreases |b|
  {
    if b == [] {
      assert a + b == a;
    } else {
      var init := b[..|b| - 1];
      var last := b[|b| - 1];
      assert (a + b)[..|a + b| - 1] == a + init;
      assert (a + b)[|a + b| - 1] == last;
      DeleteDistributes(a, init, id);
      if last.id != id {
        assert DeletePedal(a, id) + DeletePedal(init, id) + [last] == DeletePedal(a, id) + (DeletePedal(init, id) + [last]);
      }
    }
  }

  /** A pedal added and then deleted by its fresh id leaves the library as it was. */
  lemma {:induction false} DeleteUndoesAdd(lib: seq<CustomPedal>, q: CustomPedal)
    requires forall x :: x in lib ==> x.id != q.id
    ensures DeletePedal(lib + [q], q.id) == lib
  {
    assert (lib + [q])[..|lib + [q]| - 1] == lib;
    DeleteAbsentIsIdentity(lib, q.id);
  }

  /** The page state `handleAddPedal` reads and writes. */
  datatype Page = Page(library: seq<CustomPedal>, uploadedCode: string, validation: Option<Validation>)

  /** `handleAddPedal`, with `id` the `custom-<Date.now()>` string and `now` the clock. */
  function AddPedal(page: Page, id: string, now: int): (r: Page)
    ensures !(page.validation.Some? && page.validation.value.isValid && page.validation.value.metadata.Some?) ==>
              r == page
    ensures page.validation.Some? && page.validation.value.isValid && page.validation.value.metadata.Some? ==>
              var v := page.validation.value;
              var m := v.metadata.value;
              && |r.library| == |page.library| + 1
              && r.library[..|page.library|] == page.library
              && r.library[|page.library|] == CustomPedal(
                   id, m.name, m.subtitle, m.color, m.glowColor, m.author, m.version, page.uploadedCode,
                   if v.params.Some? then v.params.value else [], false, true, now)
              && r.uploadedCode == "" && r.validation.None?
  {
    match page.validation
    case Some(v) =>
      if v.isValid && v.metadata.Some? then
        var m := v.metadata.value;
        var pedal := CustomPedal(id, m.name, m.subtitle, m.color, m.glowColor, m.author, m.version,
                                 page.uploadedCode, if v.params.Some? then v.params.value else [], false, true, now);
        Page(page.library + [pedal], "", None)
      else page
    case None => page
  }

  /** The editor's `onChange`: the new code is saved into the edited pedal, with its name,
      subtitle, colours and parameters, only when it validates with metadata. Author, version,
      flags and every other pedal are kept. */
  function EditSave(p: Patterns, lib: seq<CustomPedal>, id: string, newCode: string): (r: seq<CustomPedal>)
    ensures var v := ValidationOf(p, newCode);
      && (!(v.isValid && v.metadata.Some?) ==> r == lib)
      && |r| == |lib|
      && (forall i :: 0 <= i < |lib| && lib[i].id != id ==> r[i] == lib[i])
      && (v.isValid && v.metadata.Some? ==>
            forall i :: 0 <= i < |lib| && lib[i].id == id ==>
              && r[i].code == newCode && r[i].name == v.metadata.value.name
              && r[i].subtitle == v.metadata.value.subtitle && r[i].color == v.metadata.value.color
              && r[i].glowColor == v.metadata.value.glowColor
              && r[i].params == (if v.params.Some? then v.params.value else [])
              && r[i].(code := lib[i].code, name := lib[i].name, subtitle := lib[i].subtitle,
                       color := lib[i].color, glowColor := lib[i].glowColor, params := lib[i].params) == lib[i])
  {
    var v := ValidationOf(p, newCode);
    if v.isValid && v.metadata.Some? then
      var m := v.metadata.value;
      var params := if v.params.Some? then v.params.value else [];
      seq(|lib|, i requires 0 <= i < |lib| =>
        if lib[i].id == id then
          lib[i].(code := newCode, name := m.name, subtitle := m.subtitle, color := m.color,
                  glowColor := m.glowColor, params := params)
        else lib[i])
    else lib
  }
}
