# Validated values and an authorization pipeline, in Dafny

This project models the core of a C# study of functional style with
LanguageExt. It has two parts.

**Validated-value wrappers.** These are records whose constructor is the
only point where a value is checked:

- `NonDefaultGeneric<T>` and `NonEmptyGeneric<T>` refuse `null` and
  `default(T)`.
- `NonEmptyString` refuses `null` and `""`.
- `NonEmptyGuid` refuses `Guid.Empty`.
- `GatewayId` and `OrganizationId` are subtypes whose constructors only call
  the base constructor.
- The hand-written ("boilerplaty") `Gateway` validates in its `init`
  accessors.
- Two JSON converters (System.Text.Json and Newtonsoft) read a
  `NonEmptyString` through its constructor and write it as a bare string.

**Authorization flow.** One flow is written six times: `Imperative` and
`F1` to `F5`. It looks up the device, then its gateway, checks the gateway's
configuration token against the presented token, and then fetches the
device's latest configuration. The result is an
`Either<string, DeviceConfiguration>`.

How the model is built:

- C#'s nullable references are `Nullable<T>` (`Null | Val(v)`).
- What `default(T)` is, is given by a `TypeKind<T>`: `Null` for a reference
  type, `Val(zero)` for a value type.
- Thrown exceptions are the `Throws` case of a `Result`.
- A Guid is 16 bytes, taken in the order of their hex digits in the
  canonical text form.
- `NonEmptyString` and `NonEmptyGuid` are subset types. No expression,
  `with` included, can produce an instance that breaks their invariant.
- The readers are total functions held in a `Readers` value.
- An awaited `Task` is modelled by the list of reader calls it made and the
  value it produced (`Async.Task`). The binds append the calls of the steps
  they actually run, so short-circuiting can be stated as a property of the
  calls.
- `Imperative` and `F1` are statement sequences. They are methods of the
  class `Class1`, which records every reader call in a ghost field `calls`.
- `F2` to `F5` are single expression chains, so they are functions.
- `Reference` is the intended flow. It is `Imperative` with its
  missing-device message "Invalid token" spelled "Invalid Token", like its
  other two failures. `F2Corrected` (F2 with `==`), `F3` and `F4` are proved
  equal to it. `Imperative` is tied to it by its ensures. `F5`, whose readers
  return LanguageExt types, is proved equal to it whenever those readers
  answer as the `Task` readers do (`Corresponds`).

Where the variants disagree with each other or with the code's own comments
(the anti-enumeration comment at LanguageExtTest/Class1.cs:41), the model
follows the code:

- F1 and F2 test the token with `!=`.
- `Imperative` spells its first error "Invalid token" and its second
  "Invalid Token".
- `NonDefaultGeneric<string>` accepts `""`.
- The boilerplate `Gateway` accepts a null `OrganizationId`.

## Model

| member | source | states |
|---|---|---|
| `NonDefaultGeneric.New` | LanguageExtTest/PrimitiveValueTypes/NonDefaultGeneric.cs:25-35 | succeeds exactly when the argument is neither null nor `default(T)`; the instance keeps the invariant and unwraps to the argument; otherwise throws `ArgumentOutOfRangeException("value")` |
| `NonDefaultGeneric.FromT` | LanguageExtTest/PrimitiveValueTypes/NonDefaultGeneric.cs:39 | the explicit cast accepts and refuses exactly what the constructor does, with the same exception, and keeps the argument |
| `NonDefaultGeneric.UnwrapThenNew` | LanguageExtTest/PrimitiveValueTypes/NonDefaultGeneric.cs:37 | constructing from the unwrapped value of a valid instance gives back that instance (unwrap is lossless) |
| `NonDefaultGeneric.StringAcceptsEmpty` | LanguageExtTest/Tests/PrimitiveValueTypes/NonEmptyGenericTests.cs:40-53 | for `string` the default is null: `""` is accepted and unwraps to `""`, null throws |
| `NonDefaultGeneric.BoolRejectsFalse` | LanguageExtTest/Tests/PrimitiveValueTypes/NonEmptyGenericTests.cs:64-77 | for `bool`, `false` throws `ArgumentOutOfRangeException("value")` and `true` is kept |
| `NonDefaultGeneric.GuidRejectsEmpty` | LanguageExtTest/Tests/PrimitiveValueTypes/NonEmptyGenericTests.cs:25-38 | for `Guid`, `Guid.Empty` throws and any other Guid is kept |
| `NonEmptyGeneric.New` | LanguageExtTest/PrimitiveValueTypes/NonEmptyGeneric.cs:17-26 | succeeds exactly when the argument is non-null and not `default(T)`, keeping the invariant and the argument; otherwise throws `ArgumentOutOfRangeException("value")` |
| `NonEmptyGeneric.SameRuleAsNonDefaultGeneric` | LanguageExtTest/PrimitiveValueTypes/NonEmptyGeneric.cs:21 | for every type kind and argument, it accepts exactly what `NonDefaultGeneric` accepts, with the same exception and the same unwrapped value |
| `NonEmptyGeneric.UnwrapThenNew` | LanguageExtTest/PrimitiveValueTypes/NonEmptyGeneric.cs:28 | unwrap is lossless: reconstruction gives the same instance |
| `NonEmptyString.New` | LanguageExtTest/PrimitiveValueTypes/NonEmptyString.cs:13-21 | succeeds exactly on a non-null, non-empty string and unwraps to it; null and `""` throw `ArgumentOutOfRangeException("value")` |
| `NonEmptyString.UnwrapThenNew` | LanguageExtTest/PrimitiveValueTypes/NonEmptyString.cs:23 | unwrap is lossless: reconstruction gives the same instance |
| `NonEmptyString.ContrastWithNonDefaultGeneric` | LanguageExtTest/PrimitiveValueTypes/NonEmptyString.cs:15 | accepts exactly what `NonDefaultGeneric<string>` accepts except `""`, which only the generic wrapper keeps |
| `NonEmptyGuid.New` | LanguageExtTest/PrimitiveValueTypes/NonEmptyGuid.cs:9-16 | succeeds exactly on a non-zero Guid and unwraps to it; `Guid.Empty` throws `ArgumentOutOfRangeException("_value")` |
| `NonEmptyGuid.UnwrapThenNew` | LanguageExtTest/PrimitiveValueTypes/NonEmptyGuid.cs:18 | every instance holds a non-zero Guid, and reconstruction from the unwrapped Guid gives the same instance |
| `NonEmptyGuid.SameRuleAsNonDefaultGeneric` | LanguageExtTest/PrimitiveValueTypes/NonEmptyGuid.cs:11 | accepts exactly what `NonDefaultGeneric<Guid>` accepts, and both unwrap to the argument |
| `GatewayId.New` | LanguageExtTest/RecordsAndValues/Clean/GatewayId.cs:6-8 | succeeds exactly when the `NonEmptyGuid` constructor does, throws that constructor's exception otherwise, and unwraps to the argument |
| `GatewayId.RejectsEmpty` | LanguageExtTest/RecordsAndValues/RecordsAndValuesTest.cs:24-56 | `GatewayId(Guid.Empty)` throws `ArgumentOutOfRangeException("_value")`; every instance unwraps to a non-zero Guid |
| `GatewayId.UnwrapThenNew` | LanguageExtTest/PrimitiveValueTypes/NonEmptyGuid.cs:18 | the inherited conversion is lossless |
| `OrganizationId.New` | LanguageExtTest/RecordsAndValues/Clean/OrganizationId.cs:5-7 | succeeds exactly when the `NonEmptyString` constructor does, throws that constructor's exception otherwise, and unwraps to the argument |
| `OrganizationId.Examples` | LanguageExtTest/PrimitiveValueTypes/NonEmptyStringTests.cs:15-34 | `""` and null throw `ArgumentOutOfRangeException("value")`; `"=== string ==="` is accepted and unwraps to itself |
| `OrganizationId.GatewayTestValues` | LanguageExtTest/RecordsAndValues/RecordsAndValuesTest.cs:45-55 | `"Foo"` and `"a"`, the values of the gateway tests, are accepted and unwrap to themselves |
| `OrganizationId.UnwrapThenNew` | LanguageExtTest/PrimitiveValueTypes/NonEmptyString.cs:23 | the inherited conversion is lossless |
| `NonEmptyStringJsonConverter.Read` | LanguageExtTest/PrimitiveValueTypes/NonEmptyStringJsonConverter.cs:14-16 | succeeds exactly on a non-empty string token and unwraps to it; a null or empty token throws the constructor's `ArgumentOutOfRangeException("value")` |
| `NonEmptyStringJsonConverter.RoundTrip` | LanguageExtTest/PrimitiveValueTypes/NonEmptyStringJsonConverter.cs:16-20 | reading the written token gives back the same value |
| `NonEmptyStringJsonConverter.Write` | LanguageExtTest/PrimitiveValueTypes/NonEmptyStringJsonConverter.cs:19-20 | appends exactly one token, the bare unwrapped string, which reads back to the value |
| `NonEmptyNewtonsoftJsonConverter.ReadJson` | LanguageExtTest/PrimitiveValueTypes/NonEmptyNewtonsoftJsonConverter.cs:9-13 | succeeds exactly on a non-empty string token and unwraps to it; a null or empty token throws `ArgumentOutOfRangeException("value")` |
| `NonEmptyNewtonsoftJsonConverter.IgnoresExistingValue` | LanguageExtTest/PrimitiveValueTypes/NonEmptyNewtonsoftJsonConverter.cs:9-13 | the result depends on the token only, not on `existingValue` or `hasExistingValue` |
| `NonEmptyNewtonsoftJsonConverter.RoundTrip` | LanguageExtTest/PrimitiveValueTypes/NonEmptyNewtonsoftJsonConverter.cs:12-18 | reading the written token gives back the same value |
| `NonEmptyNewtonsoftJsonConverter.AgreesWithSystemTextJson` | LanguageExtTest/PrimitiveValueTypes/NonEmptyNewtonsoftJsonConverter.cs:12-18 | both converters decode every string or null token alike (both write the token of `NonEmptyStringJsonConverter.Encode`) |
| `NonEmptyNewtonsoftJsonConverter.WriteJson` | LanguageExtTest/PrimitiveValueTypes/NonEmptyNewtonsoftJsonConverter.cs:16-19 | appends exactly the unwrapped string, which reads back to the value |
| `Boilerplaty.InitId` | LanguageExtTest/RecordsAndValues/Boilerplaty/Gateway.cs:18-24 | throws `ArgumentException("Id")` exactly on `Guid.Empty` |
| `Boilerplaty.InitOrganizationId` | LanguageExtTest/RecordsAndValues/Boilerplaty/Gateway.cs:30-36 | throws `ArgumentException("OrganizationId")` exactly on `""`; null passes |
| `Boilerplaty.New` | LanguageExtTest/RecordsAndValues/Boilerplaty/Gateway.cs:7-13 | succeeds exactly when the Guid is non-zero and the string is not `""`, a null string included; when both are invalid the exception concerns `Id` |
| `Guids.HexOfBytes` | LanguageExtTest/Class1.cs:50 | the hex text of n bytes has 2n characters |
| `Guids.Format` | LanguageExtTest/Class1.cs:50 | the text form of a Guid has 36 characters, with dashes at positions 8, 13, 18 and 23 |
| `Guids.FormatInjective` | LanguageExtTest/Class1.cs:50 | distinct Guids have distinct text forms |
| `OptionAsync.LinqWhereSelect` | LanguageExtTest/Class1.cs:108-117 | the compiler's translation of `from … from … where … select` (SelectMany into a pair, filter, map) equals `Bind` then `Filter`, with the same calls |
| `EitherAsync.LinqSelectSecond` | LanguageExtTest/Class1.cs:112-121 | `from _ in e from u in f(_) select u` equals `e.Bind(f)`, with the same calls |
| `Authorization.NotFoundIsNotInvalidToken` | LanguageExtTest/Class1.cs:36-50 | the not-found message never equals "Invalid Token" or "Invalid token" |
| `Authorization.NotFoundIdentifiesDevice` | LanguageExtTest/Class1.cs:50 | distinct device ids give distinct not-found messages |
| `Authorization.ReferenceUnifiedError` | LanguageExtTest/Class1.cs:94-102 | the result is `Left("Invalid Token")` exactly when device, gateway or token check fails |
| `Authorization.ReferenceIndistinguishable` | LanguageExtTest/Class1.cs:41-45 | any two requests that fail authorization get equal results, whatever the readers hold |
| `Authorization.ReferenceCalls` | LanguageExtTest/Class1.cs:33-53 | the device lookup comes first; the gateway lookup happens exactly when the device exists; the configuration lookup happens exactly when the token is accepted, and it comes last |
| `Authorization.ReferenceAuthorized` | LanguageExtTest/Class1.cs:47-53 | once authorized, the result is `Right` of the reader's configuration, or `Left` of the device's not-found message when there is none |
| `Authorization.F2InvertsTokenCheck` | LanguageExtTest/Class1.cs:83-92 | because of `!=`, the right token gets `Left("Invalid Token")` and no configuration lookup, while a wrong token reaches the configuration lookup and its result; a missing device makes only the device lookup, and a missing gateway only the device and gateway lookups, both with `Left("Invalid Token")` |
| `Authorization.F2CorrectedMatchesReference` | LanguageExtTest/Class1.cs:88 | with `==`, the F2 chain equals the intended flow, calls included |
| `Authorization.F3MatchesReference` | LanguageExtTest/Class1.cs:98-106 | F3 equals the intended flow for every set of readers and every input, calls included |
| `Authorization.F4MatchesF3` | LanguageExtTest/Class1.cs:108-121 | the LINQ query F4 equals F3 for every set of readers and every input, calls included |
| `Authorization.F5Outcome` | LanguageExtTest/Class1.cs:128-137 | if the token is not accepted: `Left("Invalid Token")` and no configuration lookup; otherwise exactly three lookups, and the configuration reader's result with an `Error` replaced by its message |
| `Authorization.F5MatchesReference` | LanguageExtTest/Class1.cs:128-137 | when the LanguageExt readers answer as the `Task` readers do (`None` for null, the not-found `Error` for a missing configuration), F5 equals the intended flow, calls included |
| `Authorization.F5MessagesAfterToken` | LanguageExtTest/Class1.cs:123-137 | any error other than "Invalid Token" comes out only after the token was accepted, and it is the reader's error message |
| `Authorization.Class1.Imperative` | LanguageExtTest/Class1.cs:31-54 | makes the intended flow's calls and returns its result, except that a missing device yields `Left("Invalid token")` |
| `Authorization.Class1.F1` | LanguageExtTest/Class1.cs:60-77 | makes the same calls as F2 and returns the same result |
| `Authorization.ImperativeRevealsUnknownDevice` | LanguageExtTest/Class1.cs:36-44 | an unknown device and a known device without a gateway get different errors from `Imperative` |
| `Authorization.F1AcceptsOnlyWrongToken` | LanguageExtTest/Class1.cs:69 | `F1` refuses the gateway's own token and returns the configuration for a wrong one |

## Findings

| source | as written | input that shows it | evidently intended | confidence | as-written member | corrected member |
|---|---|---|---|---|---|---|
| LanguageExtTest/Class1.cs:69 | F1 (line 69) and F2 (line 88) keep the gateway when `ConfigurationToken != token` | a device whose gateway holds "secret", presented with "secret" (refused) and with "guess" (configuration returned) | keep the gateway when the tokens are equal, as F3–F5 do | high (not executed) | `Authorization.F1AcceptsOnlyWrongToken` | `Authorization.F2CorrectedMatchesReference` |
| LanguageExtTest/Class1.cs:36 | a missing device returns "Invalid token"; a missing gateway or a wrong token returns "Invalid Token" (line 44) | an unknown device, and a known device without a gateway | one message for all three, as the comment at line 41 says | high (not executed) | `Authorization.ImperativeRevealsUnknownDevice` | `Authorization.ReferenceUnifiedError` |

## Left out

- Async machinery (`Task`, `await`, `OptionAsync`, `EitherAsync`, `BindAsync`) is reduced to sequential binds that record the reader calls they make. Nothing in the core runs concurrently. Cancellation and timing are not modelled.
- The reader classes are stubs that throw `NotImplementedException`. They are replaced by arbitrary total functions, so a reader that throws, and the faulted task it produces, is not modelled.
- The final `.ToEither()` of F2–F5 only turns an `EitherAsync` into a `Task<Either>`. It is the identity here.
- JSON library internals are not modelled: `Utf8JsonReader`, `JsonReader`, `JsonSerializer`, and converter selection by attribute. A scalar token is `Option<string>`.
- Newtonsoft's `reader.Value?.ToString()` on a number or boolean token is not modelled. Only string and null tokens are.
- NonEmptyNewtonsoftJsonConverter.RoundTrip: proved over string tokens only. Newtonsoft's default date handling (`DateParseHandling.DateTime`) reports an ISO-date-like string such as `"2020-01-01T00:00:00"` as a date. `ReadJson` then receives a `DateTime`, whose culture-formatted `ToString()` can differ from the string written, so the real round trip can fail for such strings.
- NonEmptyNewtonsoftJsonConverter.AgreesWithSystemTextJson: proved over string tokens only. For the same ISO-date-like strings, System.Text.Json's `GetString()` returns the raw string while Newtonsoft's reader has already turned it into a date, so the two converters can disagree on them.
- The skipped null-token test for System.Text.Json is not modelled. It is about the serializer not calling the converter for `null`.
- `NonEmptyNewtonsoftJsonConverter.WriteJson` with a null value would throw `NullReferenceException`. The model takes a non-null value.
- `NonDefaultGenericJsonConverter` is not registered, and its `Write` is unimplemented. It is not modelled.
- `Guid.Parse` is not modelled. It is used only by a test-local explicit operator.
- `Guid.ToString()` is modelled as the lower-case 8-4-4-4-12 hex form of the 16 bytes in text order. The .NET internal byte layout is not modelled.
- `DeviceConfiguration` has no members in the source. The model gives it a `payload` so that results can name which configuration came back.
- LanguageExt `Error` is modelled only by its `Message`.
- The boilerplate `Gateway`'s getters call themselves forever. Its record therefore has no observable state and is modelled as a stateless value.
- Record equality is plain structural equality.
- `BusinessStringValue` (a test-local subtype of `NonEmptyString`) has the same shape as `OrganizationId`, which stands for it.
- The presented token, the organization id and the gateway's configuration token are non-null strings. In C# a null presented token would equal a null `ConfigurationToken` at LanguageExtTest/Class1.cs:42 and :101. The code's nullable annotations rule this out, so the model does not cover it.
- For a value type, C#'s `value == null` is always false. The model still accepts `Null` as an argument and refuses it.
