/**
 * The tool-descriptor builder: `map_type`, `map_enum`, `to_tool` and
 * `FunctionClient.funcs_to_tools`. Reflection over a Python callable is
 * replaced by an explicit description of it: its name, its doc comment and
 * its parameters in signature order, each with its annotation and whether it
 * has a default.
 */
module Schema {
  import opened Wrappers
  import opened Docstring

  /** The built-in classes the builder tests annotations against with `issubclass`. */
  datatype PyClass = PyStr | PyInt | PyEnum

  /**
   * A parameter's annotation, as far as the builder can tell annotations
   * apart. `Str` and `Int` also stand for any subclass of `str` or `int`
   * that is not an enumeration (`class Name(str)`, say), which maps the same
   * way; `Other` is a class that subclasses neither. An enumeration's
   * `members` are the names that iterating the class yields: its canonical
   * members in definition order, aliases left out.
   */
  datatype Annotation =
    | Str
    | Int
    | Bool                              // bool is a subclass of int
    | StrEnum(members: seq<string>)     // class E(str, Enum)
    | IntEnum(members: seq<string>)     // enum.IntEnum, or class E(int, Enum)
    | PlainEnum(members: seq<string>)   // class E(Enum)
    | Missing                           // no annotation: inspect.Parameter.empty
    | Other(typeName: string)           // a class subclassing neither str nor int: float, list, dict, ...

  /** `issubclass(annotation, c)`. */
  predicate IsSubclass(a: Annotation, c: PyClass) {
    match c
    case PyStr => a.Str? || a.StrEnum?
    case PyInt => a.Int? || a.Bool? || a.IntEnum?
    case PyEnum => a.StrEnum? || a.IntEnum? || a.PlainEnum?
  }

  /** The JSON-schema `type` of a property. */
  datatype JsonType = JString | JInteger

  /** The `ValueError` raised for an annotation that is neither a `str` nor an `int` subclass. */
  datatype SchemaError = UnsupportedType(annotation: Annotation)

  /**
   * `map_type`: the `str` test comes first, so every `str` subclass,
   * string-valued enumerations included, is a string; every other `int`
   * subclass, `bool` and integer enumerations included, is an integer;
   * everything else, a plain `Enum` and a missing annotation included, is
   * refused.
   */
  function MapType(a: Annotation): (r: Result<JsonType, SchemaError>)
    ensures IsSubclass(a, PyStr) ==> r == Ok(JString)
    ensures a.Int? || a.Bool? || a.IntEnum? ==> r == Ok(JInteger)
    ensures a.PlainEnum? || a.Missing? || a.Other? ==> r == Err(UnsupportedType(a))
  {
    if IsSubclass(a, PyStr) then Ok(JString)
    else if IsSubclass(a, PyInt) then Ok(JInteger)
    else Err(UnsupportedType(a))
  }

  /** `map_enum`: the member names, in declaration order, of an enumeration; nothing for any other annotation. */
  function MapEnum(a: Annotation): (r: Option<seq<string>>)
    ensures r.Some? <==> a.StrEnum? || a.IntEnum? || a.PlainEnum?
    ensures r.Some? ==> r.value == a.members
  {
    if IsSubclass(a, PyEnum) then Some(a.members) else None
  }

  datatype Param = Param(name: string, annotation: Annotation, hasDefault: bool)

  /**
   * A callable offered as a tool: `__name__`, `__doc__` and the parameters of
   * its signature, in order. Python never repeats a parameter name in a
   * signature.
   */
  datatype Func = Func(name: string, doc: Option<string>, params: seq<Param>)

  /** One entry of `properties`: its `type`, and its `enum` and `description` keys when present. */
  datatype Property = Property(jsonType: JsonType, enumValues: Option<seq<string>>, description: Option<string>)

  /** `{"type": "object", "properties": ..., "required": ...}`; `properties` keeps insertion order. */
  datatype Parameters = Parameters(properties: seq<(string, Property)>, required: seq<string>)

  /** `{"name": ..., "parameters": ...}`, the value of the descriptor's `function` key. */
  datatype FunctionSchema = FunctionSchema(name: string, parameters: Parameters)

  /** `{"type": "function", "function": ..., "description"?: ...}`: the description sits on the outer record. */
  datatype Tool = Tool(func: FunctionSchema, description: Option<string>)

  function ParamNames(ps: seq<Param>): (names: seq<string>)
    ensures |names| == |ps| && forall i :: 0 <= i < |ps| ==> names[i] == ps[i].name
  {
    seq(|ps|, i requires 0 <= i < |ps| => ps[i].name)
  }

  function PropertyNames(props: seq<(string, Property)>): (names: seq<string>)
    ensures |names| == |props| && forall i :: 0 <= i < |props| ==> names[i] == props[i].0
  {
    seq(|props|, i requires 0 <= i < |props| => props[i].0)
  }

  /**
   * The entry one loop iteration of `to_tool` puts in `properties`: the
   * mapped type, an `enum` key exactly for an enumeration with at least one
   * member (a plain `Enum` never gets that far), and a `description` key
   * exactly when the doc comment described the parameter.
   */
  function PropertyOf(p: Param, descs: map<string, string>): (r: Result<Property, SchemaError>)
    ensures r.Ok? <==> MapType(p.annotation).Ok?
    ensures r.Err? ==> r.error == UnsupportedType(p.annotation)
    ensures r.Ok? ==> r.value.jsonType == MapType(p.annotation).value
    ensures r.Ok? ==> (r.value.enumValues.Some? <==> (p.annotation.StrEnum? || p.annotation.IntEnum?) && p.annotation.members != [])
    ensures r.Ok? && r.value.enumValues.Some? ==> r.value.enumValues.value == p.annotation.members
    ensures r.Ok? ==> (r.value.description.Some? <==> p.name in descs)
    ensures r.Ok? && p.name in descs ==> r.value.description == Some(descs[p.name])
  {
    match MapType(p.annotation)
    case Err(e) => Err(e)
    case Ok(t) =>
      var options := MapEnum(p.annotation);
      Ok(Property(t,
                  if options.Some? && options.value != [] then options else None,
                  if p.name in descs then Some(descs[p.name]) else None))
  }

  /**
   * The `properties` that the loop of `to_tool` builds: one entry per
   * parameter, keyed by its name, in signature order; the first parameter
   * whose type is unsupported stops the loop with its error.
   */
  function PropertiesOf(ps: seq<Param>, descs: map<string, string>): (r: Result<seq<(string, Property)>, SchemaError>)
    ensures r.Ok? <==> forall i :: 0 <= i < |ps| ==> MapType(ps[i].annotation).Ok?
    ensures r.Ok? ==> |r.value| == |ps| && forall i :: 0 <= i < |ps| ==> r.value[i] == (ps[i].name, PropertyOf(ps[i], descs).value)
    ensures r.Err? ==> exists k :: 0 <= k < |ps| && r.error == UnsupportedType(ps[k].annotation)
                                   && MapType(ps[k].annotation).Err?
                                   && forall j :: 0 <= j < k ==> MapType(ps[j].annotation).Ok?
  {
    if ps == [] then Ok([])
    else
      var init := ps[..|ps| - 1];
      var last := ps[|ps| - 1];
      assert forall i :: 0 <= i < |init| ==> init[i] == ps[i];
      match PropertiesOf(init, descs)
      case Err(e) => Err(e)
      case Ok(props) =>
        match PropertyOf(last, descs)
        case Err(e) => Err(e)
        case Ok(prop) => Ok(props + [(last.name, prop)])
  }

  /** `[name for name, param in ... if param.default == inspect.Parameter.empty]`. */
  function RequiredNames(ps: seq<Param>): (names: seq<string>)
    ensures forall i :: 0 <= i < |ps| && !ps[i].hasDefault ==> ps[i].name in names
    ensures forall n :: n in names ==> exists i :: 0 <= i < |ps| && ps[i].name == n && !ps[i].hasDefault
    ensures IsSubsequence(names, ParamNames(ps))
  {
    if ps == [] then []
    else
      var rest := RequiredNames(ps[1..]);
      var ys := ParamNames(ps);
      assert ys[0] == ps[0].name && ys[1..] == ParamNames(ps[1..]);
      assert forall i :: 1 <= i < |ps| ==> ps[i] == ps[1..][i - 1];
      if ps[0].hasDefault then
        rest
      else
        var names := [ps[0].name] + rest;
        assert names[0] == ys[0] && names[1..] == rest;
        names
  }

  /**
   * `names` lists the names of the parameters at positions `idx`; those
   * positions increase and are exactly the parameters without a default.
   * Such a list is unique, even where two parameters share a name.
   */
  predicate PicksRequired(ps: seq<Param>, names: seq<string>, idx: seq<int>) {
    && |idx| == |names|
    && (forall j :: 0 <= j < |idx| ==> 0 <= idx[j] < |ps| && !ps[idx[j]].hasDefault && names[j] == ps[idx[j]].name)
    && (forall j, k :: 0 <= j < k < |idx| ==> idx[j] < idx[k])
    && (forall i :: 0 <= i < |ps| && !ps[i].hasDefault ==> i in idx)
  }

  /** The `required` list picks, in signature order, exactly the parameters without a default. */
  lemma {:induction false} RequiredNamesAt(ps: seq<Param>) returns (idx: seq<int>)
    ensures PicksRequired(ps, RequiredNames(ps), idx)
  {
    if ps == [] {
      idx := [];
    } else {
      var tail := RequiredNamesAt(ps[1..]);
      var rest := RequiredNames(ps[1..]);
      var shifted := PicksShift(ps, rest, tail);
      if ps[0].hasDefault {
        assert RequiredNames(ps) == rest;
        idx := shifted;
      } else {
        assert RequiredNames(ps) == [ps[0].name] + rest;
        idx := PicksFirst(ps, rest, shifted);
      }
    }
  }

  /** Every position moved one place on. */
  function Shifted(xs: seq<int>): (ys: seq<int>)
    ensures |ys| == |xs| && forall j :: 0 <= j < |xs| ==> ys[j] == xs[j] + 1
  {
    if xs == [] then [] else [xs[0] + 1] + Shifted(xs[1..])
  }

  /** The positions picked from the parameters after the first, as positions in the whole list. */
  lemma PicksShift(ps: seq<Param>, rest: seq<string>, tail: seq<int>) returns (shifted: seq<int>)
    requires ps != [] && PicksRequired(ps[1..], rest, tail)
    ensures |shifted| == |rest|
    ensures forall j :: 0 <= j < |shifted| ==> 1 <= shifted[j] < |ps| && !ps[shifted[j]].hasDefault && rest[j] == ps[shifted[j]].name
    ensures forall j, k :: 0 <= j < k < |shifted| ==> shifted[j] < shifted[k]
    ensures forall i :: 1 <= i < |ps| && !ps[i].hasDefault ==> i in shifted
  {
    shifted := Shifted(tail);
    forall j | 0 <= j < |shifted|
      ensures 1 <= shifted[j] < |ps| && !ps[shifted[j]].hasDefault && rest[j] == ps[shifted[j]].name
    {
      assert ps[shifted[j]] == ps[1..][tail[j]];
    }
    ShiftedCovers(ps, tail);
  }

  /** Every parameter after the first without a default is at a shifted position. */
  lemma ShiftedCovers(ps: seq<Param>, tail: seq<int>)
    requires ps != [] && forall i :: 0 <= i < |ps[1..]| && !ps[1..][i].hasDefault ==> i in tail
    ensures forall i :: 1 <= i < |ps| && !ps[i].hasDefault ==> i in Shifted(tail)
  {
    var shifted := Shifted(tail);
    forall i | 1 <= i < |ps| && !ps[i].hasDefault
      ensures i in shifted
    {
      assert ps[1..][i - 1] == ps[i];
      var j :| 0 <= j < |tail| && tail[j] == i - 1;
      assert shifted[j] == i;
    }
  }

  /** A first parameter without a default is picked ahead of the later ones. */
  lemma PicksFirst(ps: seq<Param>, rest: seq<string>, shifted: seq<int>) returns (idx: seq<int>)
    requires ps != [] && !ps[0].hasDefault && |shifted| == |rest|
    requires forall j :: 0 <= j < |shifted| ==> 1 <= shifted[j] < |ps| && !ps[shifted[j]].hasDefault && rest[j] == ps[shifted[j]].name
    requires forall j, k :: 0 <= j < k < |shifted| ==> shifted[j] < shifted[k]
    requires forall i :: 1 <= i < |ps| && !ps[i].hasDefault ==> i in shifted
    ensures PicksRequired(ps, [ps[0].name] + rest, idx)
  {
    idx := [0] + shifted;
    var names := [ps[0].name] + rest;
    forall j | 0 <= j < |idx|
      ensures 0 <= idx[j] < |ps| && !ps[idx[j]].hasDefault && names[j] == ps[idx[j]].name
    {
      if j > 0 {
        assert idx[j] == shifted[j - 1] && names[j] == rest[j - 1];
      }
    }
    forall j, k | 0 <= j < k < |idx|
      ensures idx[j] < idx[k]
    {
      assert idx[k] == shifted[k - 1];
      if j > 0 {
        assert idx[j] == shifted[j - 1];
      }
    }
    FirstCovers(ps, shifted);
  }

  /** With the first position in front, every parameter without a default is at some position. */
  lemma FirstCovers(ps: seq<Param>, shifted: seq<int>)
    requires ps != [] && forall i :: 1 <= i < |ps| && !ps[i].hasDefault ==> i in shifted
    ensures forall i :: 0 <= i < |ps| && !ps[i].hasDefault ==> i in [0] + shifted
  {
    forall i | 0 <= i < |ps| && !ps[i].hasDefault
      ensures i in [0] + shifted
    {
      if i == 0 {
        assert ([0] + shifted)[0] == i;
      } else {
        var j :| 0 <= j < |shifted| && shifted[j] == i;
        assert ([0] + shifted)[j + 1] == i;
      }
    }
  }

  /** `xs` can be obtained from `ys` by deleting elements: the elements of `xs` occur in `ys` in the same order. */
  predicate IsSubsequence(xs: seq<string>, ys: seq<string>)
    decreases |ys|
  {
    xs == [] || (ys != [] && ((xs[0] == ys[0] && IsSubsequence(xs[1..], ys[1..])) || IsSubsequence(xs, ys[1..])))
  }

  /** What `to_tool(func)` returns, or the `ValueError` it raises. */
  function ToolSpec(f: Func): (r: Result<Tool, SchemaError>)
    ensures r.Ok? <==> forall i :: 0 <= i < |f.params| ==> MapType(f.params[i].annotation).Ok?
    ensures r.Err? ==> exists k :: 0 <= k < |f.params| && r.error == UnsupportedType(f.params[k].annotation)
                                   && MapType(f.params[k].annotation).Err?
    ensures r.Ok? ==> r.value.func.name == f.name
    ensures r.Ok? ==> PropertyNames(r.value.func.parameters.properties) == ParamNames(f.params)
    ensures r.Ok? ==> forall i :: 0 <= i < |f.params| ==>
                        r.value.func.parameters.properties[i].1 == PropertyOf(f.params[i], Describe(f.doc).params).value
    ensures r.Ok? ==> r.value.func.parameters.required == RequiredNames(f.params)
    ensures r.Ok? ==> (r.value.description.Some? <==> Describe(f.doc).summary != "")
    ensures r.Ok? && r.value.description.Some? ==> r.value.description.value == Describe(f.doc).summary
  {
    var d := Describe(f.doc);
    match PropertiesOf(f.params, d.params)
    case Err(e) => Err(e)
    case Ok(props) =>
      Ok(Tool(FunctionSchema(f.name, Parameters(props, RequiredNames(f.params))),
              if d.summary != "" then Some(d.summary) else None))
  }

  /** One more supported parameter extends the properties of the parameters before it by its own. */
  lemma PropertiesSnoc(ps: seq<Param>, descs: map<string, string>, i: nat, props: seq<(string, Property)>)
    requires i < |ps| && PropertiesOf(ps[..i], descs) == Ok(props)
    ensures PropertiesOf(ps[..i + 1], descs)
            == if MapType(ps[i].annotation).Ok? then Ok(props + [(ps[i].name, PropertyOf(ps[i], descs).value)])
               else Err(UnsupportedType(ps[i].annotation))
  {
    assert ps[..i + 1][..i] == ps[..i] && ps[..i + 1][i] == ps[i];
  }

  /** A parameter whose annotation is refused, after supported ones only, decides the error of the whole list. */
  lemma {:induction false} PropertiesFirstError(ps: seq<Param>, descs: map<string, string>, i: nat)
    requires i < |ps| && PropertiesOf(ps[..i], descs).Ok? && MapType(ps[i].annotation).Err?
    ensures PropertiesOf(ps, descs) == Err(UnsupportedType(ps[i].annotation))
  {
    PropertiesSnoc(ps, descs, i, PropertiesOf(ps[..i], descs).value);
    PropertiesPrefixError(ps, descs, i + 1);
  }

  /** The descriptor of `f` in terms of its doc comment's description and its properties. */
  lemma ToolSpecOf(f: Func, summary: string, descs: map<string, string>)
    requires Describe(f.doc) == Description(summary, descs)
    ensures PropertiesOf(f.params, descs).Err? ==> ToolSpec(f) == Err(PropertiesOf(f.params, descs).error)
    ensures PropertiesOf(f.params, descs).Ok? ==>
              ToolSpec(f) == Ok(Tool(FunctionSchema(f.name, Parameters(PropertiesOf(f.params, descs).value, RequiredNames(f.params))),
                                     if summary != "" then Some(summary) else None))
  {
  }

  /**
   * `to_tool`: builds `properties` in a loop over the signature, then the
   * descriptor, then adds the top-level `description` when the summary is
   * not empty.
   */
  method ToTool(f: Func) returns (r: Result<Tool, SchemaError>)
    ensures r == ToolSpec(f)
  {
    var summary, descs := ParseDescription(f.doc);
    var properties: seq<(string, Property)> := [];
    for i := 0 to |f.params|
      invariant PropertiesOf(f.params[..i], descs) == Ok(properties)
    {
      var p := f.params[i];
      var paramType := MapType(p.annotation);
      if paramType.Err? {
        PropertiesFirstError(f.params, descs, i);
        ToolSpecOf(f, summary, descs);
        return Err(paramType.error);
      }
      var options := MapEnum(p.annotation);
      var prop := Property(paramType.value, None, None);
      if options.Some? && options.value != [] {
        prop := prop.(enumValues := options);
      }
      if p.name in descs {
        prop := prop.(description := Some(descs[p.name]));
      }
      PropertiesSnoc(f.params, descs, i, properties);
      properties := properties + [(p.name, prop)];
    }
    assert f.params[..|f.params|] == f.params;
    ToolSpecOf(f, summary, descs);
    var tool := Tool(FunctionSchema(f.name, Parameters(properties, RequiredNames(f.params))), None);
    if summary != "" {
      tool := tool.(description := Some(summary));
    }
    return Ok(tool);
  }

  /** Once a prefix of the signature fails, the whole signature fails with the same error. */
  lemma {:induction false} PropertiesPrefixError(ps: seq<Param>, descs: map<string, string>, n: nat)
    requires n <= |ps| && PropertiesOf(ps[..n], descs).Err?
    ensures PropertiesOf(ps, descs) == PropertiesOf(ps[..n], descs)
  {
    var pre := ps[..n];
    var k :| 0 <= k < |pre| && PropertiesOf(pre, descs).error == UnsupportedType(pre[k].annotation)
             && MapType(pre[k].annotation).Err? && forall j :: 0 <= j < k ==> MapType(pre[j].annotation).Ok?;
    assert ps[k] == pre[k];
    assert forall j :: 0 <= j < k ==> ps[j] == pre[j];
    var r := PropertiesOf(ps, descs);
    assert r.Err?;
    var k' :| 0 <= k' < |ps| && r.error == UnsupportedType(ps[k'].annotation)
              && MapType(ps[k'].annotation).Err? && forall j :: 0 <= j < k' ==> MapType(ps[j].annotation).Ok?;
    assert k' == k;
  }

  /** Collects a sequence of results into one, failing with the first error. */
  function AllOk<T, E>(rs: seq<Result<T, E>>): (r: Result<seq<T>, E>)
    ensures r.Ok? <==> forall i :: 0 <= i < |rs| ==> rs[i].Ok?
    ensures r.Ok? ==> |r.value| == |rs| && forall i :: 0 <= i < |rs| ==> rs[i] == Ok(r.value[i])
    ensures r.Err? ==> exists k :: 0 <= k < |rs| && rs[k] == Err(r.error) && forall j :: 0 <= j < k ==> rs[j].Ok?
  {
    if rs == [] then Ok([])
    else
      var init := rs[..|rs| - 1];
      assert forall i :: 0 <= i < |init| ==> init[i] == rs[i];
      match AllOk(init)
      case Err(e) => Err(e)
      case Ok(vs) =>
        match rs[|rs| - 1]
        case Err(e) => Err(e)
        case Ok(v) => Ok(vs + [v])
  }

  /**
   * The descriptor list of `funcs_to_tools`: one descriptor per function, in
   * input order; the first function `to_tool` refuses raises for the whole list.
   */
  function ToolsOf(funcs: seq<Func>): (r: Result<seq<Tool>, SchemaError>)
    ensures r.Ok? <==> forall i :: 0 <= i < |funcs| ==> ToolSpec(funcs[i]).Ok?
    ensures r.Ok? ==> |r.value| == |funcs| && forall i :: 0 <= i < |funcs| ==> ToolSpec(funcs[i]) == Ok(r.value[i])
    ensures r.Err? ==> exists k :: 0 <= k < |funcs| && ToolSpec(funcs[k]) == Err(r.error)
                                   && forall j :: 0 <= j < k ==> ToolSpec(funcs[j]).Ok?
  {
    var specs := seq(|funcs|, i requires 0 <= i < |funcs| => ToolSpec(funcs[i]));
    assert forall i :: 0 <= i < |funcs| ==> specs[i] == ToolSpec(funcs[i]);
    AllOk(specs)
  }

  /**
   * The name map of `funcs_to_tools`, built by a dictionary comprehension:
   * every function is reachable under its `__name__`, and only those names are keys.
   */
  function Registry(funcs: seq<Func>): (r: map<string, Func>)
    ensures forall i :: 0 <= i < |funcs| ==> funcs[i].name in r
    ensures forall n :: n in r ==> r[n].name == n && r[n] in funcs
  {
    if funcs == [] then map[]
    else
      var last := funcs[|funcs| - 1];
      var r := Registry(funcs[..|funcs| - 1])[last.name := last];
      assert forall i :: 0 <= i < |funcs| - 1 ==> funcs[..|funcs| - 1][i] == funcs[i];
      r
  }

  /** Of several functions with one name, the last one in the list is the one the name map keeps. */
  lemma {:induction false} RegistryLastWins(funcs: seq<Func>, i: nat)
    requires i < |funcs|
    requires forall j :: i < j < |funcs| ==> funcs[j].name != funcs[i].name
    ensures Registry(funcs)[funcs[i].name] == funcs[i]
  {
    if i < |funcs| - 1 {
      var init := funcs[..|funcs| - 1];
      assert forall j :: i < j < |init| ==> init[j] == funcs[j];
      RegistryLastWins(init, i);
    }
  }

  /** `funcs_to_tools`: the descriptor list and the name map, or the error of the first refused function. */
  function FuncsToTools(funcs: seq<Func>): (r: Result<(seq<Tool>, map<string, Func>), SchemaError>)
    ensures r.Ok? <==> ToolsOf(funcs).Ok?
    ensures r.Err? ==> r.error == ToolsOf(funcs).error
    ensures r.Ok? ==> r.value.0 == ToolsOf(funcs).value && r.value.1 == Registry(funcs)
  {
    match ToolsOf(funcs)
    case Err(e) => Err(e)
    case Ok(tools) => Ok((tools, Registry(funcs)))
  }
}
