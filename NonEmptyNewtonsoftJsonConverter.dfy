/** The Newtonsoft.Json converter for `NonEmptyString`. Tokens, their string
    and the token written are those of the System.Text.Json converter; for a
    string or null token `reader.Value?.ToString()` is that token's string. */
module NonEmptyNewtonsoftJsonConverter {
  import opened Wrappers
  import opened NonEmptyString
  import Json = NonEmptyStringJsonConverter

  /** `ReadJson`: the token goes through the validating constructor; the
      existing value and its flag are not used. */
  function ReadJson(t: Json.Token, existingValue: Nullable<NonEmptyString>, hasExistingValue: bool)
    : (r: Result<NonEmptyString>)
    ensures r.Ok? <==> t.Some? && t.value != ""
    ensures r.Ok? ==> ToString(r.value) == t.value
    ensures r.Throws? ==> r.exception == ArgumentOutOfRangeException("value")
  {
    New(Json.GetString(t))
  }

  /** The result depends on the token alone. */
  lemma IgnoresExistingValue(t: Json.Token, e1: Nullable<NonEmptyString>, h1: bool, e2: Nullable<NonEmptyString>, h2: bool)
    ensures ReadJson(t, e1, h1) == ReadJson(t, e2, h2)
  {
  }

  /** Reading what was written gives back the same value. */
  lemma RoundTrip(value: NonEmptyString, existingValue: Nullable<NonEmptyString>, hasExistingValue: bool)
    ensures ReadJson(Json.Encode(value), existingValue, hasExistingValue) == Ok(value)
  {
  }

  /** Both converters decode every modelled token alike. */
  lemma AgreesWithSystemTextJson(t: Json.Token)
    ensures ReadJson(t, Null, false) == Json.Read(t)
  {
  }

  class JsonWriter {
    var tokens: seq<Json.Token>

    constructor ()
      ensures tokens == []
    {
      tokens := [];
    }

    method WriteValue(s: Nullable<string>)
      modifies this
      ensures tokens == old(tokens) + [if s.Null? then None else Some(s.value)]
    {
      tokens := tokens + [if s.Null? then None else Some(s.value)];
    }
  }

  /** `WriteJson`: the unwrapped string as one bare token. */
  method WriteJson(writer: JsonWriter, value: NonEmptyString)
    modifies writer
    ensures writer.tokens == old(writer.tokens) + [Json.Encode(value)]
    ensures ReadJson(writer.tokens[|writer.tokens| - 1], Null, false) == Ok(value)
  {
    writer.WriteValue(Val(ToString(value)));
  }
}
