/** Token counts of one turn (`Usage`) and their JSON form. */
module TokenUsage {
  import opened Wrappers
  import opened Json

  const InputTokensKey := "input_tokens"
  const CachedInputTokensKey := "cached_input_tokens"
  const OutputTokensKey := "output_tokens"

  datatype Usage = Usage(inputTokens: Int32, cachedInputTokens: Int32, outputTokens: Int32)

  /** `input_tokens` and `output_tokens` are required; `cached_input_tokens` defaults to 0. */
  function DecodeUsage(j: Json): (r: Option<Usage>)
    ensures r.Some? ==> j.JObject? && InputTokensKey in j.fields && OutputTokensKey in j.fields
    ensures r.Some? ==> j.fields[InputTokensKey] == JInt(r.value.inputTokens)
    ensures r.Some? && CachedInputTokensKey !in j.fields ==> r.value.cachedInputTokens == 0
  {
    var o :- AsObject(j);
    var input :- Required(o, InputTokensKey, AsInt32);
    var cached :- WithDefault(o, CachedInputTokensKey, 0, AsInt32);
    var output :- Required(o, OutputTokensKey, AsInt32);
    Some(Usage(input, cached, output))
  }

  function EncodeUsage(u: Usage): Json {
    JObject(map[InputTokensKey := JInt(u.inputTokens),
                CachedInputTokensKey := JInt(u.cachedInputTokens),
                OutputTokensKey := JInt(u.outputTokens)])
  }

  /** Decoding succeeds exactly when both required counts are present 32-bit integers and a present cached count is one too. */
  lemma DecodeUsageSpec(o: map<string, Json>)
    ensures DecodeUsage(JObject(o)).Some? <==>
      InputTokensKey in o && AsInt32(o[InputTokensKey]).Some?
      && OutputTokensKey in o && AsInt32(o[OutputTokensKey]).Some?
      && (CachedInputTokensKey in o ==> AsInt32(o[CachedInputTokensKey]).Some?)
    ensures DecodeUsage(JObject(o)).Some? ==>
      var u := DecodeUsage(JObject(o)).value;
      JInt(u.inputTokens) == o[InputTokensKey] && JInt(u.outputTokens) == o[OutputTokensKey]
      && (if CachedInputTokensKey in o then JInt(u.cachedInputTokens) == o[CachedInputTokensKey]
          else u.cachedInputTokens == 0)
  {
  }

  /** A usage missing either required count fails to decode. */
  lemma MissingCountFails(o: map<string, Json>)
    requires InputTokensKey !in o || OutputTokensKey !in o
    ensures DecodeUsage(JObject(o)) == None
  {
  }

  /** Keys other than the three counts do not affect decoding. */
  lemma UsageIgnoresUnknownKeys(o: map<string, Json>, k: string, v: Json)
    requires k != InputTokensKey && k != CachedInputTokensKey && k != OutputTokensKey
    ensures DecodeUsage(JObject(o[k := v])) == DecodeUsage(JObject(o))
  {
  }

  /** Decoding preserves all three counts exactly. */
  lemma UsageRoundTrip(u: Usage)
    ensures DecodeUsage(EncodeUsage(u)) == Some(u)
  {
  }
}
