/**
 * The Renderer's three name-keyed tables (Source/Library/Renderer/Renderer.cpp) as values:
 * keys, stored entries, iteration orders, and the insert and rebind semantics.
 */
module Registry {
  import opened Common

  /**
   * A table key: a `PCWSTR` compared with `==`, i.e. by address. Two keys with the same text
   * at different addresses are different keys.
   */
  datatype Key = Key(address: nat)

  /** A shader object held through a `shared_ptr`, by identity. */
  datatype ShaderRef = ShaderRef(id: nat)

  /**
   * What the Renderer reads from, and writes to, a stored renderable: its two shader bindings
   * (empty until set) and its index count.
   */
  datatype Renderable = Renderable(vertexShader: Option<ShaderRef>, pixelShader: Option<ShaderRef>, numIndices: nat)

  predicate Distinct(order: seq<Key>)
  {
    forall i, j :: 0 <= i < j < |order| ==> order[i] != order[j]
  }

  /**
   * `order` is an iteration order of a hash table with this key set: every key exactly once.
   * The order itself is unspecified by `std::unordered_map`, so it is an input everywhere.
   */
  predicate Enumerates(order: seq<Key>, keys: set<Key>)
  {
    && Distinct(order)
    && (forall i :: 0 <= i < |order| ==> order[i] in keys)
    && (forall k :: k in keys ==> k in order)
  }

  /** Add-unless-present: the rule shared by AddRenderable, AddVertexShader and AddPixelShader. */
  function Register<V>(table: map<Key, V>, name: Key, value: V): (r: (HResult, map<Key, V>))
    ensures r.0 == E_FAIL <==> name in table
    ensures r.0 == S_OK <==> name !in table
    ensures name in table ==> r.1 == table
    ensures name !in table ==> r.1.Keys == table.Keys + {name} && r.1[name] == value
    ensures forall k :: k in table ==> k in r.1 && r.1[k] == table[k]
  {
    if name in table then (E_FAIL, table) else (S_OK, table[name := value])
  }

  /**
   * SetVertexShaderOfRenderable: the named renderable now refers to the named vertex shader,
   * when both names are present; nothing else changes.
   */
  function BindVertexShader(renderables: map<Key, Renderable>, vertexShaders: map<Key, ShaderRef>,
                            name: Key, shaderName: Key): (r: map<Key, Renderable>)
    ensures r.Keys == renderables.Keys
    ensures forall k :: k in renderables && k != name ==> r[k] == renderables[k]
    ensures name in renderables && shaderName in vertexShaders ==>
              r[name].vertexShader == Some(vertexShaders[shaderName])
              && r[name].pixelShader == renderables[name].pixelShader
              && r[name].numIndices == renderables[name].numIndices
    ensures !(name in renderables && shaderName in vertexShaders) ==> r == renderables
  {
    if name in renderables && shaderName in vertexShaders
    then renderables[name := renderables[name].(vertexShader := Some(vertexShaders[shaderName]))]
    else renderables
  }

  /** SetPixelShaderOfRenderable: as BindVertexShader, for the pixel shader. */
  function BindPixelShader(renderables: map<Key, Renderable>, pixelShaders: map<Key, ShaderRef>,
                           name: Key, shaderName: Key): (r: map<Key, Renderable>)
    ensures r.Keys == renderables.Keys
    ensures forall k :: k in renderables && k != name ==> r[k] == renderables[k]
    ensures name in renderables && shaderName in pixelShaders ==>
              r[name].pixelShader == Some(pixelShaders[shaderName])
              && r[name].vertexShader == renderables[name].vertexShader
              && r[name].numIndices == renderables[name].numIndices
    ensures !(name in renderables && shaderName in pixelShaders) ==> r == renderables
  {
    if name in renderables && shaderName in pixelShaders
    then renderables[name := renderables[name].(pixelShader := Some(pixelShaders[shaderName]))]
    else renderables
  }

  /** A successful registration grows the table by one, so the new key needs a new slot in any order. */
  lemma RegisterGrows<V>(table: map<Key, V>, name: Key, value: V)
    requires name !in table
    ensures |Register(table, name, value).1| == |table| + 1
  {
    assert Register(table, name, value).1.Keys == table.Keys + {name};
  }

  /** Rebinding is idempotent: setting the same shader twice is the same as setting it once. */
  lemma BindVertexShaderIdempotent(renderables: map<Key, Renderable>, vertexShaders: map<Key, ShaderRef>,
                                   name: Key, shaderName: Key)
    ensures BindVertexShader(BindVertexShader(renderables, vertexShaders, name, shaderName), vertexShaders, name, shaderName)
            == BindVertexShader(renderables, vertexShaders, name, shaderName)
  {
  }
}
