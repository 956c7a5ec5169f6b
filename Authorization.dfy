/** The six versions of one authorization flow: find the device, find its
    gateway, check that the gateway's configuration token is the presented
    token, then fetch the device's latest configuration. The readers are
    external collaborators, given as total functions; every call to one is
    recorded (as a `Call`) so that short-circuiting can be stated. */
module Authorization {
  import opened Wrappers
  import opened Guids
  import opened Async
  import OptionAsync
  import EitherAsync

  datatype Device = Device(gatewayId: Guid)

  datatype Gateway = Gateway(configurationToken: string)

  /** The source's record has no members; `payload` stands for whatever the
      reader returns, so that the model can say which configuration comes
      back. */
  datatype DeviceConfiguration = DeviceConfiguration(payload: string)

  /** LanguageExt `Error`, of which only the message is used. */
  datatype Error = Error(message: string)

  /** One call to an external reader, with its arguments. */
  datatype Call =
    | DeviceLookup(organizationId: string, deviceId: Guid)
    | GatewayLookup(organizationId: string, gatewayId: Guid)
    | ConfigurationLookup(organizationId: string, deviceId: Guid)

  /** The three readers. The `Task`-returning methods may yield null; the
      LanguageExt-returning ones (used by F5) yield an `Option` or an
      `Either` with an `Error`. */
  datatype Readers = Readers(
    getDeviceAsync: (string, Guid) -> Nullable<Device>,
    getGatewayAsync: (string, Guid) -> Nullable<Gateway>,
    getLatestDeviceConfigurationByDeviceAsync: (string, Guid) -> Nullable<DeviceConfiguration>,
    getDevice: (string, Guid) -> Option<Device>,
    getGateway: (string, Guid) -> Option<Gateway>,
    getLatestDeviceConfigurationByDevice: (string, Guid) -> Either<Error, DeviceConfiguration>)

  type Outcome = Task<Call, Either<string, DeviceConfiguration>>

  const InvalidToken: string := "Invalid Token"

  /** `$"DeviceId {deviceId} Not found"`. */
  function NotFound(deviceId: Guid): string {
    "DeviceId " + Format(deviceId) + " Not found"
  }

  /** The post-authentication error can never be mistaken for the unified
      one, in either of the capitalisations the source uses. */
  lemma NotFoundIsNotInvalidToken(deviceId: Guid)
    ensures NotFound(deviceId) != InvalidToken
    ensures NotFound(deviceId) != "Invalid token"
  {
    assert NotFound(deviceId)[0] == 'D';
  }

  /** The post-authentication error names the device: distinct devices give
      distinct messages. */
  lemma NotFoundIdentifiesDevice(d1: Guid, d2: Guid)
    requires NotFound(d1) == NotFound(d2)
    ensures d1 == d2
  {
    var m1, m2 := NotFound(d1), NotFound(d2);
    assert m1[9..45] == Format(d1);
    assert m2[9..45] == Format(d2);
    FormatInjective(d1, d2);
  }

  // ---------------------------------------------------------------------
  // The readers as tasks

  function DeviceAsync(rd: Readers, o: string, d: Guid): Task<Call, Nullable<Device>> {
    Task([DeviceLookup(o, d)], rd.getDeviceAsync(o, d))
  }

  function GatewayAsync(rd: Readers, o: string, g: Guid): Task<Call, Nullable<Gateway>> {
    Task([GatewayLookup(o, g)], rd.getGatewayAsync(o, g))
  }

  function ConfigurationAsync(rd: Readers, o: string, d: Guid): Task<Call, Nullable<DeviceConfiguration>> {
    Task([ConfigurationLookup(o, d)], rd.getLatestDeviceConfigurationByDeviceAsync(o, d))
  }

  function DeviceOption(rd: Readers, o: string, d: Guid): OptionAsync.OptionAsync<Call, Device> {
    Task([DeviceLookup(o, d)], rd.getDevice(o, d))
  }

  function GatewayOption(rd: Readers, o: string, g: Guid): OptionAsync.OptionAsync<Call, Gateway> {
    Task([GatewayLookup(o, g)], rd.getGateway(o, g))
  }

  function ConfigurationEither(rd: Readers, o: string, d: Guid): EitherAsync.EitherAsync<Call, Error, DeviceConfiguration> {
    Task([ConfigurationLookup(o, d)], rd.getLatestDeviceConfigurationByDevice(o, d))
  }

  // ---------------------------------------------------------------------
  // The intended flow

  /** The device exists, its gateway exists, and the gateway's configuration
      token is the presented one (`Task` readers). */
  predicate TokenAccepted(rd: Readers, o: string, token: string, d: Guid) {
    && rd.getDeviceAsync(o, d).Val?
    && rd.getGatewayAsync(o, rd.getDeviceAsync(o, d).value.gatewayId).Val?
    && rd.getGatewayAsync(o, rd.getDeviceAsync(o, d).value.gatewayId).value.configurationToken == token
  }

  /** The flow as the comments describe it, with early returns: `Imperative`
      with its missing-device message "Invalid token" spelled "Invalid Token"
      like its other two, so that all three early failures are the same
      value. */
  function Reference(rd: Readers, o: string, token: string, d: Guid): Outcome {
    var device := rd.getDeviceAsync(o, d);
    if device.Null? then Task([DeviceLookup(o, d)], Left(InvalidToken))
    else
      var g := device.value.gatewayId;
      var gateway := rd.getGatewayAsync(o, g);
      if gateway.Null? || gateway.value.configurationToken != token then
        Task([DeviceLookup(o, d), GatewayLookup(o, g)], Left(InvalidToken))
      else
        var calls := [DeviceLookup(o, d), GatewayLookup(o, g), ConfigurationLookup(o, d)];
        match rd.getLatestDeviceConfigurationByDeviceAsync(o, d)
        case Null => Task(calls, Left(NotFound(d)))
        case Val(c) => Task(calls, Right(c))
  }

  /** The unified error: the result is `Left("Invalid Token")` exactly when
      the token is not accepted, whichever of the three checks failed. */
  lemma ReferenceUnifiedError(rd: Readers, o: string, token: string, d: Guid)
    ensures Reference(rd, o, token, d).result == Left(InvalidToken) <==> !TokenAccepted(rd, o, token, d)
  {
  }

  /** Anti-enumeration: two requests that both fail authorization (whatever
      the readers hold and whichever check failed) get structurally equal
      results. */
  lemma ReferenceIndistinguishable(rd1: Readers, o1: string, t1: string, d1: Guid,
                                   rd2: Readers, o2: string, t2: string, d2: Guid)
    requires !TokenAccepted(rd1, o1, t1, d1) && !TokenAccepted(rd2, o2, t2, d2)
    ensures Reference(rd1, o1, t1, d1).result == Reference(rd2, o2, t2, d2).result
  {
  }

  /** Short-circuiting: the device reader is called first; the gateway
      reader only if the device exists; the configuration reader exactly
      when the token is accepted, and then last. */
  lemma ReferenceCalls(rd: Readers, o: string, token: string, d: Guid)
    ensures var calls := Reference(rd, o, token, d).calls;
      && 1 <= |calls| <= 3
      && calls[0] == DeviceLookup(o, d)
      && (|calls| >= 2 <==> rd.getDeviceAsync(o, d).Val?)
      && (ConfigurationLookup(o, d) in calls <==> TokenAccepted(rd, o, token, d))
      && (ConfigurationLookup(o, d) in calls ==> calls[|calls| - 1] == ConfigurationLookup(o, d))
  {
  }

  /** Once authorized, the result is the configuration, or the
      device-identifying not-found message when there is none. */
  lemma ReferenceAuthorized(rd: Readers, o: string, token: string, d: Guid)
    requires TokenAccepted(rd, o, token, d)
    ensures rd.getLatestDeviceConfigurationByDeviceAsync(o, d).Val? ==>
      Reference(rd, o, token, d).result == Right(rd.getLatestDeviceConfigurationByDeviceAsync(o, d).value)
    ensures rd.getLatestDeviceConfigurationByDeviceAsync(o, d).Null? ==>
      Reference(rd, o, token, d).result == Left(NotFound(d))
  {
  }

  // ---------------------------------------------------------------------
  // F2 to F5: single expression chains

  /** F2: `OptionAsync`/`EitherAsync` binds, with the token test written `!=`. */
  function F2(rd: Readers, o: string, token: string, d: Guid): Outcome {
    var device := OptionAsync.ToEither(OptionAsync.OptionalAsync(DeviceAsync(rd, o, d)), InvalidToken);
    var gateway := EitherAsync.Bind(device, (dev: Device) =>
      OptionAsync.ToEither(OptionAsync.OptionalAsync(GatewayAsync(rd, o, dev.gatewayId)), InvalidToken));
    var checked := EitherAsync.BindEither(gateway, (g: Gateway) =>
      if g.configurationToken != token then Right(g) else Left(InvalidToken));
    EitherAsync.Bind(checked, (_: Gateway) =>
      OptionAsync.ToEither(OptionAsync.OptionalAsync(ConfigurationAsync(rd, o, d)), NotFound(d)))
  }

  /** F2 as evidently intended: the same chain with the token test `==`. */
  function F2Corrected(rd: Readers, o: string, token: string, d: Guid): Outcome {
    var device := OptionAsync.ToEither(OptionAsync.OptionalAsync(DeviceAsync(rd, o, d)), InvalidToken);
    var gateway := EitherAsync.Bind(device, (dev: Device) =>
      OptionAsync.ToEither(OptionAsync.OptionalAsync(GatewayAsync(rd, o, dev.gatewayId)), InvalidToken));
    var checked := EitherAsync.BindEither(gateway, (g: Gateway) =>
      if g.configurationToken == token then Right(g) else Left(InvalidToken));
    EitherAsync.Bind(checked, (_: Gateway) =>
      OptionAsync.ToEither(OptionAsync.OptionalAsync(ConfigurationAsync(rd, o, d)), NotFound(d)))
  }

  /** What F2 does because of `!=`: a gateway holding the presented token is
      refused with the unified error, without a configuration lookup, and a
      gateway holding any other token proceeds to the configuration lookup.
      A missing device or gateway still short-circuits. */
  lemma F2InvertsTokenCheck(rd: Readers, o: string, token: string, d: Guid)
    ensures TokenAccepted(rd, o, token, d) ==>
      F2(rd, o, token, d).result == Left(InvalidToken) && ConfigurationLookup(o, d) !in F2(rd, o, token, d).calls
    ensures (&& rd.getDeviceAsync(o, d).Val?
             && rd.getGatewayAsync(o, rd.getDeviceAsync(o, d).value.gatewayId).Val?
             && !TokenAccepted(rd, o, token, d)) ==>
      && ConfigurationLookup(o, d) in F2(rd, o, token, d).calls
      && F2(rd, o, token, d).result ==
           (match rd.getLatestDeviceConfigurationByDeviceAsync(o, d)
            case Null => Left(NotFound(d))
            case Val(c) => Right(c))
    ensures rd.getDeviceAsync(o, d).Null? ==>
      F2(rd, o, token, d) == Task([DeviceLookup(o, d)], Left(InvalidToken))
    ensures rd.getDeviceAsync(o, d).Val? && rd.getGatewayAsync(o, rd.getDeviceAsync(o, d).value.gatewayId).Null? ==>
      F2(rd, o, token, d) ==
        Task([DeviceLookup(o, d), GatewayLookup(o, rd.getDeviceAsync(o, d).value.gatewayId)], Left(InvalidToken))
  {
  }

  /** With `==` the chain is the intended flow, calls included. */
  lemma F2CorrectedMatchesReference(rd: Readers, o: string, token: string, d: Guid)
    ensures F2Corrected(rd, o, token, d) == Reference(rd, o, token, d)
  {
  }

  /** F3: the three early steps stay one `OptionAsync` chain, filtered on the
      token and turned into an `Either` once, with the unified error. */
  function F3(rd: Readers, o: string, token: string, d: Guid): Outcome {
    var gateway := OptionAsync.Bind(OptionAsync.OptionalAsync(DeviceAsync(rd, o, d)), (device: Device) =>
      OptionAsync.OptionalAsync(GatewayAsync(rd, o, device.gatewayId)));
    var authorized := OptionAsync.Filter(gateway, (g: Gateway) => g.configurationToken == token);
    EitherAsync.Bind(OptionAsync.ToEither(authorized, InvalidToken), (_: Gateway) =>
      OptionAsync.ToEither(OptionAsync.OptionalAsync(ConfigurationAsync(rd, o, d)), NotFound(d)))
  }

  /** F3 is the intended flow: same result, same calls in the same order. */
  lemma F3MatchesReference(rd: Readers, o: string, token: string, d: Guid)
    ensures F3(rd, o, token, d) == Reference(rd, o, token, d)
  {
  }

  /** F4: the same flow as a LINQ query. The C# compiler turns each second
      `from` into `SelectMany`, `where` into a filter on the pair of range
      variables and `select` into a map. */
  function F4(rd: Readers, o: string, token: string, d: Guid): Outcome {
    var pairs := OptionAsync.SelectMany(
      OptionAsync.OptionalAsync(DeviceAsync(rd, o, d)),
      (device: Device) => OptionAsync.OptionalAsync(GatewayAsync(rd, o, device.gatewayId)),
      (device: Device, gateway: Gateway) => (device, gateway));
    var authorized := OptionAsync.Map(
      OptionAsync.Filter(pairs, (x: (Device, Gateway)) => x.1.configurationToken == token),
      (x: (Device, Gateway)) => x.1);
    EitherAsync.SelectMany(
      OptionAsync.ToEither(authorized, InvalidToken),
      (_: Gateway) => OptionAsync.ToEither(OptionAsync.OptionalAsync(ConfigurationAsync(rd, o, d)), NotFound(d)),
      (_: Gateway, deviceConfiguration: DeviceConfiguration) => deviceConfiguration)
  }

  /** The query and the method chain are the same computation. */
  lemma F4MatchesF3(rd: Readers, o: string, token: string, d: Guid)
    ensures F4(rd, o, token, d) == F3(rd, o, token, d)
  {
  }

  /** The device exists, its gateway exists, and the gateway's configuration
      token is the presented one (LanguageExt readers). */
  predicate TokenAcceptedF5(rd: Readers, o: string, token: string, d: Guid) {
    && rd.getDevice(o, d).Some?
    && rd.getGateway(o, rd.getDevice(o, d).value.gatewayId).Some?
    && rd.getGateway(o, rd.getDevice(o, d).value.gatewayId).value.configurationToken == token
  }

  /** F5: the LINQ query over readers that return `OptionAsync` and
      `EitherAsync`; the configuration reader's `Error` becomes its message. */
  function F5(rd: Readers, o: string, token: string, d: Guid): Outcome {
    var pairs := OptionAsync.SelectMany(
      DeviceOption(rd, o, d),
      (device: Device) => GatewayOption(rd, o, device.gatewayId),
      (device: Device, gateway: Gateway) => (device, gateway));
    var authorized := OptionAsync.Map(
      OptionAsync.Filter(pairs, (x: (Device, Gateway)) => x.1.configurationToken == token),
      (x: (Device, Gateway)) => x.1);
    EitherAsync.SelectMany(
      OptionAsync.ToEither(authorized, InvalidToken),
      (_: Gateway) => EitherAsync.MapLeft(ConfigurationEither(rd, o, d), (e: Error) => e.message),
      (_: Gateway, deviceConfiguration: DeviceConfiguration) => deviceConfiguration)
  }

  /** F5 refuses with the unified error, before any configuration lookup,
      exactly when the token is not accepted; otherwise its result is the
      configuration reader's, with an `Error` replaced by its message. */
  lemma F5Outcome(rd: Readers, o: string, token: string, d: Guid)
    ensures !TokenAcceptedF5(rd, o, token, d) ==>
      F5(rd, o, token, d).result == Left(InvalidToken) && ConfigurationLookup(o, d) !in F5(rd, o, token, d).calls
    ensures TokenAcceptedF5(rd, o, token, d) ==>
      && F5(rd, o, token, d).calls ==
           [DeviceLookup(o, d), GatewayLookup(o, rd.getDevice(o, d).value.gatewayId), ConfigurationLookup(o, d)]
      && F5(rd, o, token, d).result ==
           (match rd.getLatestDeviceConfigurationByDevice(o, d)
            case Left(e) => Left(e.message)
            case Right(c) => Right(c))
    ensures rd.getDevice(o, d).None? ==> F5(rd, o, token, d).calls == [DeviceLookup(o, d)]
  {
    var device := DeviceOption(rd, o, d);
    var gatewayOf := (dev: Device) => GatewayOption(rd, o, dev.gatewayId);
    var tokenMatches := (g: Gateway) => g.configurationToken == token;
    OptionAsync.LinqWhereSelect(device, gatewayOf, tokenMatches);
    var authorized := OptionAsync.Filter(OptionAsync.Bind(device, gatewayOf), tokenMatches);
    var config := (_: Gateway) => EitherAsync.MapLeft(ConfigurationEither(rd, o, d), (e: Error) => e.message);
    EitherAsync.LinqSelectSecond(OptionAsync.ToEither(authorized, InvalidToken), config);
  }

  /** A message other than the unified one comes out of F5 only after the
      token check has passed, and then it is the reader's error message. */
  lemma F5MessagesAfterToken(rd: Readers, o: string, token: string, d: Guid)
    requires F5(rd, o, token, d).result.Left?
    requires F5(rd, o, token, d).result.left != InvalidToken
    ensures TokenAcceptedF5(rd, o, token, d)
    ensures rd.getLatestDeviceConfigurationByDevice(o, d).Left?
    ensures F5(rd, o, token, d).result.left == rd.getLatestDeviceConfigurationByDevice(o, d).left.message
  {
    F5Outcome(rd, o, token, d);
  }

  /** The LanguageExt readers answer as the `Task` readers do: `None` where
      those yield null, and for a missing configuration the `Error` whose
      message is the not-found message of the other variants. */
  ghost predicate Corresponds(rd: Readers) {
    && (forall o, d :: rd.getDevice(o, d) == Optional(rd.getDeviceAsync(o, d)))
    && (forall o, g :: rd.getGateway(o, g) == Optional(rd.getGatewayAsync(o, g)))
    && (forall o, d :: rd.getLatestDeviceConfigurationByDevice(o, d) ==
          match rd.getLatestDeviceConfigurationByDeviceAsync(o, d)
          case Null => Left(Error(NotFound(d)))
          case Val(c) => Right(c))
  }

  /** With readers that correspond, F5 is the intended flow, calls included. */
  lemma F5MatchesReference(rd: Readers, o: string, token: string, d: Guid)
    requires Corresponds(rd)
    ensures F5(rd, o, token, d) == Reference(rd, o, token, d)
  {
    var device := DeviceOption(rd, o, d);
    var gatewayOf := (dev: Device) => GatewayOption(rd, o, dev.gatewayId);
    var tokenMatches := (g: Gateway) => g.configurationToken == token;
    OptionAsync.LinqWhereSelect(device, gatewayOf, tokenMatches);
    var authorized := OptionAsync.Filter(OptionAsync.Bind(device, gatewayOf), tokenMatches);
    var config := (_: Gateway) => EitherAsync.MapLeft(ConfigurationEither(rd, o, d), (e: Error) => e.message);
    EitherAsync.LinqSelectSecond(OptionAsync.ToEither(authorized, InvalidToken), config);
  }

  // ---------------------------------------------------------------------
  // Imperative and F1: statement sequences with awaited reader calls

  class Class1 {
    const readers: Readers

    /** Every reader call made through this object so far. */
    ghost var calls: seq<Call>

    constructor (readers: Readers)
      ensures this.readers == readers && calls == []
    {
      this.readers := readers;
      calls := [];
    }

    method GetDeviceAsync(o: string, d: Guid) returns (device: Nullable<Device>)
      modifies this
      ensures device == readers.getDeviceAsync(o, d)
      ensures calls == old(calls) + [DeviceLookup(o, d)]
    {
      device := readers.getDeviceAsync(o, d);
      calls := calls + [DeviceLookup(o, d)];
    }

    method GetGatewayAsync(o: string, g: Guid) returns (gateway: Nullable<Gateway>)
      modifies this
      ensures gateway == readers.getGatewayAsync(o, g)
      ensures calls == old(calls) + [GatewayLookup(o, g)]
    {
      gateway := readers.getGatewayAsync(o, g);
      calls := calls + [GatewayLookup(o, g)];
    }

    method GetLatestDeviceConfigurationByDeviceAsync(o: string, d: Guid) returns (config: Nullable<DeviceConfiguration>)
      modifies this
      ensures config == readers.getLatestDeviceConfigurationByDeviceAsync(o, d)
      ensures calls == old(calls) + [ConfigurationLookup(o, d)]
    {
      config := readers.getLatestDeviceConfigurationByDeviceAsync(o, d);
      calls := calls + [ConfigurationLookup(o, d)];
    }

    /** `Imperative`: the intended flow, calls included, except that a
        missing device is reported as "Invalid token" with a lower-case t. */
    method Imperative(o: string, token: string, d: Guid) returns (r: Either<string, DeviceConfiguration>)
      modifies this
      ensures calls == old(calls) + Reference(readers, o, token, d).calls
      ensures readers.getDeviceAsync(o, d).Null? ==> r == Left("Invalid token")
      ensures readers.getDeviceAsync(o, d).Val? ==> r == Reference(readers, o, token, d).result
    {
      var device := GetDeviceAsync(o, d);
      if device.Null? {
        return Left("Invalid token");
      }
      var gateway := GetGatewayAsync(o, device.value.gatewayId);
      if gateway.Null? || gateway.value.configurationToken != token {
        return Left("Invalid Token");
      }
      var config := GetLatestDeviceConfigurationByDeviceAsync(o, d);
      if config.Null? {
        return Left(NotFound(d));
      }
      return Right(config.value);
    }

    /** `F1`: the same chain as `F2`, written as successive binds on
        awaited results; it makes the same calls and returns the same
        result. */
    method F1(o: string, token: string, d: Guid) returns (r: Either<string, DeviceConfiguration>)
      modifies this
      ensures calls == old(calls) + F2(readers, o, token, d).calls
      ensures r == F2(readers, o, token, d).result
    {
      var found := GetDeviceAsync(o, d);
      var device := Optional(found).ToEither(InvalidToken);
      var f2: Either<string, Gateway>;
      match device {
        case Left(l) =>
          f2 := Left(l);
        case Right(dev) =>
          var gateway := GetGatewayAsync(o, dev.gatewayId);
          f2 := Optional(gateway).ToEither(InvalidToken);
      }
      var f3 := f2.Bind((g: Gateway) => if g.configurationToken != token then Right(g) else Left(InvalidToken));
      match f3 {
        case Left(l) =>
          r := Left(l);
        case Right(_) =>
          var config := GetLatestDeviceConfigurationByDeviceAsync(o, d);
          r := Optional(config).ToEither(NotFound(d));
      }
    }
  }

  const SomeDevice: Guid := [1, 0, 0, 0, 0, 0, 0, 0, 0, 0, 0, 0, 0, 0, 0, 0]
  const SomeGateway: Guid := [2, 0, 0, 0, 0, 0, 0, 0, 0, 0, 0, 0, 0, 0, 0, 0]

  /** Readers that know one device, whose gateway (if `withGateway`) holds
      the token "secret" and whose configuration is "config". */
  function OneDevice(withDevice: bool, withGateway: bool): Readers {
    Readers(
      (o: string, d: Guid) => if withDevice then Val(Device(SomeGateway)) else Null,
      (o: string, g: Guid) => if withGateway then Val(Gateway("secret")) else Null,
      (o: string, d: Guid) => Val(DeviceConfiguration("config")),
      (o: string, d: Guid) => if withDevice then Some(Device(SomeGateway)) else None,
      (o: string, g: Guid) => if withGateway then Some(Gateway("secret")) else None,
      (o: string, d: Guid) => Right(DeviceConfiguration("config")))
  }

  /** `Imperative` tells a caller whether the device exists: an unknown
      device and a known device without a gateway get different errors. */
  method ImperativeRevealsUnknownDevice() returns (unknownDevice: Either<string, DeviceConfiguration>,
                                                   knownDevice: Either<string, DeviceConfiguration>)
    ensures unknownDevice == Left("Invalid token")
    ensures knownDevice == Left("Invalid Token")
    ensures unknownDevice != knownDevice
  {
    var c1 := new Class1(OneDevice(false, false));
    unknownDevice := c1.Imperative("org", "secret", SomeDevice);
    var c2 := new Class1(OneDevice(true, false));
    knownDevice := c2.Imperative("org", "secret", SomeDevice);
  }

  /** `F1` refuses the right token and accepts a wrong one. */
  method F1AcceptsOnlyWrongToken() returns (rightToken: Either<string, DeviceConfiguration>,
                                            wrongToken: Either<string, DeviceConfiguration>)
    ensures rightToken == Left(InvalidToken)
    ensures wrongToken == Right(DeviceConfiguration("config"))
  {
    var c := new Class1(OneDevice(true, true));
    rightToken := c.F1("org", "secret", SomeDevice);
    wrongToken := c.F1("org", "guess", SomeDevice);
  }
}
