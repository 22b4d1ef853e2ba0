/** The fixed table of backend models and the key lookup (main.py:30-33, 51-64). */
module Registry {

  const GeneralKey := "general"
  const CodeKey := "code"

  /** The configured mapping from short key to backend model name. */
  const Models: map<string, string> := map[
    GeneralKey := "qwen2.5:3b",
    CodeKey := "qwen2.5-coder:3b"
  ]

  /** One entry of the model listing offered to clients. The display text
      is the source's `label` key; `label` is a reserved word in Dafny, so
      the field is called `caption`. */
  datatype ModelEntry = ModelEntry(key: string, name: string, caption: string)

  /** Resolves a key to a backend model name; an unknown key gets the general
      model, so the lookup never fails. */
  function ModelName(key: string): (name: string)
    ensures key in Models ==> name == Models[key]
    ensures key !in Models ==> name == Models[GeneralKey]
    ensures name in Models.Values
  {
    if key in Models then Models[key] else Models[GeneralKey]
  }

  /** The coder model is chosen for the key "code" and for no other key. */
  lemma CoderOnlyForCodeKey(key: string)
    ensures ModelName(key) == "qwen2.5-coder:3b" <==> key == CodeKey
  {
  }

  /** The listing: general first, then code, each with its configured name
      and a display label. */
  function ListModels(): (entries: seq<ModelEntry>)
    ensures |entries| == |Models|
    ensures entries[0].key == GeneralKey && entries[1].key == CodeKey
    ensures forall i :: 0 <= i < |entries| ==>
      entries[i].key in Models && entries[i].name == Models[entries[i].key]
    ensures forall k :: k in Models ==> exists i :: 0 <= i < |entries| && entries[i].key == k
    ensures forall i, j :: 0 <= i < j < |entries| ==> entries[i].key != entries[j].key
  {
    [ ModelEntry(GeneralKey, Models[GeneralKey], "\U{1F4AC} General"),
      ModelEntry(CodeKey, Models[CodeKey], "\U{1F4BB} Code") ]
  }

  /** Every listed key resolves, through ModelName, to the name listed beside it. */
  lemma ListedEntriesResolve()
    ensures forall e :: e in ListModels() ==> ModelName(e.key) == e.name
  {
  }
}
