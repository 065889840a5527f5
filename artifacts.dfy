/** The forge artifact schema: `abi` an array, `bytecode.object` and `bytecode.sourceMap` strings. */
module Artifacts {
  import opened Wrappers
  import opened JsonValues
  import opened Errors

  /** `obj` holds the artifact's `bytecode.object`. */
  datatype Bytecode = Bytecode(obj: string, sourceMap: string)

  /** What forgeArtifactsValidator.parse returns; keys outside the schema are dropped. */
  datatype Artifact = Artifact(abi: seq<Json>, bytecode: Bytecode)

  /** `key` is present in object `j` and holds a string. */
  predicate HasString(j: Json, key: string) {
    j.JObject? && key in j.fields && j.fields[key].JString?
  }

  /** Does `j` conform to the schema, with `a` as its parsed value? */
  predicate Describes(j: Json, a: Artifact) {
    && j.JObject? && "abi" in j.fields && "bytecode" in j.fields
    && j.fields["abi"] == JArray(a.abi)
    && var b := j.fields["bytecode"];
    && b.JObject? && "object" in b.fields && "sourceMap" in b.fields
    && b.fields["object"] == JString(a.bytecode.obj)
    && b.fields["sourceMap"] == JString(a.bytecode.sourceMap)
  }

  /** forgeArtifactsValidator.parse */
  function ParseArtifact(j: Json): (r: Result<Artifact, PluginError>)
    ensures r.Ok? ==> Describes(j, r.value)
    ensures r.Err? ==> r.error == InvalidArtifact
    ensures (exists a :: Describes(j, a)) ==> r.Ok?
  {
    if j.JObject? && "abi" in j.fields && j.fields["abi"].JArray?
       && "bytecode" in j.fields && HasString(j.fields["bytecode"], "object")
       && HasString(j.fields["bytecode"], "sourceMap")
    then
      var b := j.fields["bytecode"].fields;
      Ok(Artifact(j.fields["abi"].items, Bytecode(b["object"].s, b["sourceMap"].s)))
    else
      Err(InvalidArtifact)
  }

  /** The artifact written out as the JSON document forge produces. */
  function ArtifactJson(a: Artifact): Json {
    JObject(map[
      "abi" := JArray(a.abi),
      "bytecode" := JObject(map["object" := JString(a.bytecode.obj), "sourceMap" := JString(a.bytecode.sourceMap)])
    ])
  }

  /** Parsing returns a conforming document's fields unchanged. */
  lemma ParseArtifactRoundTrip(a: Artifact)
    ensures ParseArtifact(ArtifactJson(a)) == Ok(a)
  {
  }

  /** Parsing depends only on the schema's keys: any other top-level key is ignored. */
  lemma UnknownKeysIgnored(fields: map<string, Json>, key: string, v: Json)
    requires key != "abi" && key != "bytecode"
    ensures ParseArtifact(JObject(fields[key := v])) == ParseArtifact(JObject(fields))
  {
  }

  /** A bytecode without `object`, or whose `object` is not a string, is rejected. */
  lemma MissingObjectRejected(j: Json)
    requires j.JObject? && "bytecode" in j.fields && !HasString(j.fields["bytecode"], "object")
    ensures ParseArtifact(j) == Err(InvalidArtifact)
  {
  }

  /** A non-array `abi` is rejected. */
  lemma NonArrayAbiRejected(j: Json)
    requires j.JObject? && "abi" in j.fields && !j.fields["abi"].JArray?
    ensures ParseArtifact(j) == Err(InvalidArtifact)
  {
  }

  /** {"abi":[],"bytecode":{"object":"0x","sourceMap":""}} parses to the empty contract. */
  lemma EmptyContractArtifact()
    ensures ParseArtifact(JObject(map[
      "abi" := JArray([]),
      "bytecode" := JObject(map["object" := JString("0x"), "sourceMap" := JString("")])
    ])) == Ok(Artifact([], Bytecode("0x", "")))
  {
  }
}
