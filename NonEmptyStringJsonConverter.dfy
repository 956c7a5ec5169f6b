/** The System.Text.Json converter for `NonEmptyString`. A scalar JSON token
    is `None` for `null` and `Some(s)` for the string `s`; the writer is an
    output sequence of such tokens. */
module NonEmptyStringJsonConverter {
  import opened Wrappers
  import opened NonEmptyString

  type Token = Option<string>

  /** `Utf8JsonReader.GetString()`: null for a null token. */
  function GetString(t: Token): Nullable<string> {
    match t
    case None => Null
    case Some(s) => Val(s)
  }

  /** `Read`: the token's string goes through the validating constructor, so
      a null or empty token fails exactly as direct construction does. */
  function Read(t: Token): (r: Result<NonEmptyString>)
    ensures r.Ok? <==> t.Some? && t.value != ""
    ensures r.Ok? ==> ToString(r.value) == t.value
    ensures r.Throws? ==> r.exception == ArgumentOutOfRangeException("value")
  {
    New(GetString(t))
  }

  /** The token `Write` emits: the bare unwrapped string. */
  function Encode(value: NonEmptyString): Token {
    Some(ToString(value))
  }

  /** Reading what was written gives back the same value. */
  lemma RoundTrip(value: NonEmptyString)
    ensures Read(Encode(value)) == Ok(value)
  {
  }

  class Utf8JsonWriter {
    var tokens: seq<Token>

    constructor ()
      ensures tokens == []
    {
      tokens := [];
    }

    method WriteStringValue(s: string)
      modifies this
      ensures tokens == old(tokens) + [Some(s)]
    {
      tokens := tokens + [Some(s)];
    }
  }

  /** `Write`: one string token, no envelope. */
  method Write(writer: Utf8JsonWriter, value: NonEmptyString)
    modifies writer
    ensures writer.tokens == old(writer.tokens) + [Encode(value)]
    ensures Read(writer.tokens[|writer.tokens| - 1]) == Ok(value)
  {
    writer.WriteStringValue(ToString(value));
  }
}
