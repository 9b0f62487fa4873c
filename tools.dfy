/**
  `function_to_json` (src/utils/tools.py): the JSON schema describing a
  function for tool calling, built from its name, docstring and parameter
  list (each parameter's name, annotation and whether it has a default).
*/
module Tools {
  import opened Wrappers
  import opened Dicts

  /** A parameter's annotation: one of the mapped Python types, another type, or none at all. */
  datatype Annotation = StrType | IntType | FloatType | BoolType | ListType | DictType | NoneType
                      | OtherType(typeName: string) | Unannotated

  /** One entry of the function's signature. */
  datatype Parameter = Parameter(name: string, annotation: Annotation, hasDefault: bool)

  /** A JSON value as the function builds it: strings, lists and insertion-ordered objects. */
  datatype Json = JString(text: string) | JArray(items: seq<Json>) | JObject(fields: PyDict<string, Json>)

  /** The seven JSON type names the schema may use. */
  predicate IsJsonTypeName(t: string) {
    t == "string" || t == "integer" || t == "number" || t == "boolean" || t == "array" || t == "object" || t == "null"
  }

  /** `type_map.get(annotation, "string")`. */
  function JsonType(a: Annotation): (r: string)
    ensures IsJsonTypeName(r)
    ensures a.OtherType? || a.Unannotated? || a.StrType? <==> r == "string"
    ensures a.IntType? <==> r == "integer"
    ensures a.FloatType? <==> r == "number"
    ensures a.BoolType? <==> r == "boolean"
    ensures a.ListType? <==> r == "array"
    ensures a.DictType? <==> r == "object"
    ensures a.NoneType? <==> r == "null"
  {
    match a
    case StrType => "string"
    case IntType => "integer"
    case FloatType => "number"
    case BoolType => "boolean"
    case ListType => "array"
    case DictType => "object"
    case NoneType => "null"
    case _ => "string"
  }

  /** `{"type": <json type>}` for one parameter. */
  function TypeSchema(p: Parameter): Json {
    JObject(PyDict(["type"], map["type" := JString(JsonType(p.annotation))]))
  }

  /** The names of the parameters, in signature order. */
  function ParameterNames(params: seq<Parameter>): (r: seq<string>)
    ensures |r| == |params|
    ensures forall i :: 0 <= i < |r| ==> r[i] == params[i].name
  {
    seq(|params|, i requires 0 <= i < |params| => params[i].name)
  }

  /** No two parameters share a name, as in any Python signature. */
  predicate DistinctNames(params: seq<Parameter>) {
    forall i, j :: 0 <= i < j < |params| ==> params[i].name != params[j].name
  }

  lemma NamesSnoc(params: seq<Parameter>)
    requires params != []
    ensures ParameterNames(params) == ParameterNames(params[..|params| - 1]) + [params[|params| - 1].name]
  {
  }

  /** The `parameters` dict of the loop: one `{"type": ...}` entry per parameter name. */
  function Properties(params: seq<Parameter>): (r: Dict<string, Json>)
    ensures forall k :: k in r.entries <==> k in ParameterNames(params)
  {
    if params == [] then Empty()
    else
      var n := |params| - 1;
      NamesSnoc(params);
      Put(Properties(params[..n]), params[n].name, TypeSchema(params[n]))
  }

  /** Each parameter's entry is its type schema, unless a later parameter of the same name overwrote it. */
  lemma {:induction false} PropertyOf(params: seq<Parameter>, i: nat)
    requires i < |params| && forall j :: i < j < |params| ==> params[j].name != params[i].name
    ensures params[i].name in Properties(params).entries
    ensures Properties(params).entries[params[i].name] == TypeSchema(params[i])
  {
    var n := |params| - 1;
    NamesSnoc(params);
    if i < n {
      var init := params[..n];
      assert init[i] == params[i];
      PropertyOf(init, i);
    }
  }

  /** With distinct names, as in any Python signature, the keys are the parameter names in signature order. */
  lemma {:induction false} PropertyOrder(params: seq<Parameter>)
    requires DistinctNames(params)
    ensures Properties(params).keys == ParameterNames(params)
  {
    if params != [] {
      var n := |params| - 1;
      var init := params[..n];
      NamesSnoc(params);
      assert DistinctNames(init);
      PropertyOrder(init);
      assert params[n].name !in ParameterNames(init);
    }
  }

  /** The `required` list: the names of the parameters without a default, in signature order. */
  function Required(params: seq<Parameter>): (r: seq<string>)
    ensures |r| <= |params|
    ensures forall k :: k in r <==> exists i :: 0 <= i < |params| && !params[i].hasDefault && params[i].name == k
    ensures (forall i :: 0 <= i < |params| ==> !params[i].hasDefault) ==> r == ParameterNames(params)
    ensures (forall i :: 0 <= i < |params| ==> params[i].hasDefault) ==> r == []
    ensures |params| == 1 ==> r == if params[0].hasDefault then [] else [params[0].name]
  {
    if params == [] then []
    else
      var n := |params| - 1;
      var before := Required(params[..n]);
      assert forall i :: 0 <= i < n ==> params[..n][i] == params[i];
      NamesSnoc(params);
      if params[n].hasDefault then before else before + [params[n].name]
  }

  /** The list follows the signature: the required names of a longer signature extend those of its prefix, in order. */
  lemma {:induction false} RequiredAppend(p: seq<Parameter>, q: seq<Parameter>)
    ensures Required(p + q) == Required(p) + Required(q)
  {
    if q != [] {
      var n := |q| - 1;
      assert (p + q)[..|p + q| - 1] == p + q[..n];
      RequiredAppend(p, q[..n]);
      assert (p + q)[|p + q| - 1] == q[n];
    } else {
      assert p + q == p;
    }
  }

  /** The JSON strings of the names. */
  function Strings(names: seq<string>): (r: seq<Json>)
    ensures |r| == |names|
    ensures forall i :: 0 <= i < |r| ==> r[i] == JString(names[i])
  {
    seq(|names|, i requires 0 <= i < |names| => JString(names[i]))
  }

  /** Looking up a key of a JSON object; anything else has no members. */
  function Member(j: Json, key: string): (r: Option<Json>)
    ensures r.Some? <==> j.JObject? && key in j.fields.entries
    ensures r.Some? ==> r.value == j.fields.entries[key]
  {
    if j.JObject? && key in j.fields.entries then Some(j.fields.entries[key]) else None
  }

  /**
    `function_to_json`: a "function" tool whose name is the function's name,
    whose description is the docstring or "" (Python's `or` also maps an empty
    docstring to ""), and whose parameters form an "object" schema with one
    property per parameter and the parameters without default as `required`.
  */
  function FunctionToJson(name: string, doc: Option<string>, params: seq<Parameter>): (r: Json)
    ensures r.JObject? && r.fields.keys == ["type", "function"]
    ensures Member(r, "type") == Some(JString("function"))
    ensures Member(r, "function").Some?
    ensures var f := Member(r, "function").value;
            && f.JObject? && f.fields.keys == ["name", "description", "parameters"]
            && Member(f, "name") == Some(JString(name))
            && Member(f, "description") == Some(JString(if doc.Some? then doc.value else ""))
            && Member(f, "parameters").Some?
    ensures var schema := Member(Member(r, "function").value, "parameters").value;
            && schema.JObject? && schema.fields.keys == ["type", "properties", "required"]
            && Member(schema, "type") == Some(JString("object"))
            && Member(schema, "properties") == Some(JObject(Properties(params)))
            && Member(schema, "required") == Some(JArray(Strings(Required(params))))
  {
    var description := if doc.Some? && doc.value != "" then doc.value else "";
    var schema := JObject(PyDict(["type", "properties", "required"], map[
      "type" := JString("object"),
      "properties" := JObject(Properties(params)),
      "required" := JArray(Strings(Required(params)))]));
    var tool := JObject(PyDict(["name", "description", "parameters"], map[
      "name" := JString(name),
      "description" := JString(description),
      "parameters" := schema]));
    JObject(PyDict(["type", "function"], map["type" := JString("function"), "function" := tool]))
  }

  /** Each parameter's property is `{"type": t}` with t its mapped JSON type, "string" for anything unmapped. */
  lemma PropertyTypes(name: string, doc: Option<string>, params: seq<Parameter>, i: nat)
    requires DistinctNames(params) && i < |params|
    ensures var props := Member(Member(Member(FunctionToJson(name, doc, params), "function").value, "parameters").value, "properties").value;
            var p := Member(props, params[i].name);
            && p.Some?
            && Member(p.value, "type") == Some(JString(JsonType(params[i].annotation)))
            && IsJsonTypeName(JsonType(params[i].annotation))
  {
    PropertyOf(params, i);
  }
}
