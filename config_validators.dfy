/**
 * The four configuration validators the payment client runs once per
 * configuration object when it is constructed. Each either accepts the
 * object or reports the single message of the first rule it breaks.
 */
module ConfigValidators {
  import opened Wrappers
  import opened Rules
  import opened Uuid

  datatype GlobalConfig = GlobalConfig(callbackHost: Option<string>, baseUrl: Option<string>, environment: Option<string>)
  datatype ProductConfig = ProductConfig(primaryKey: Option<string>, userId: Option<string>, userSecret: Option<string>)
  datatype SubscriptionConfig = SubscriptionConfig(primaryKey: Option<string>)
  datatype UserConfig = UserConfig(userId: Option<string>, userSecret: Option<string>)

  const CALLBACK_HOST_REQUIRED := "callbackHost is required"
  const BASE_URL_REQUIRED := "baseUrl is required if environment is not sandbox"
  const PRIMARY_KEY_REQUIRED := "primaryKey is required"
  const USER_ID_REQUIRED := "userId is required"
  const USER_SECRET_REQUIRED := "userSecret is required"
  const USER_ID_NOT_UUID := "userId must be a valid uuid v4"

  /** The one environment in which the default base URL may be used. */
  const SANDBOX := "sandbox"

  /** A base URL is demanded only when an environment is named and it is not the sandbox. */
  predicate NeedsBaseUrl(environment: Option<string>) {
    Present(environment) && environment.value != SANDBOX
  }

  /** The user id is set and is a version-4 UUID. */
  predicate IsUuidV4Id(userId: Option<string>) {
    userId.Some? && IsUuidV4(userId.value)
  }

  // The rules of each validator, in the order they are checked.

  function GlobalConfigRules(c: GlobalConfig): seq<Rule> {
    [ Rule(Present(c.callbackHost), CALLBACK_HOST_REQUIRED),
      Rule(!NeedsBaseUrl(c.environment) || Present(c.baseUrl), BASE_URL_REQUIRED) ]
  }

  function SubscriptionConfigRules(c: SubscriptionConfig): seq<Rule> {
    [ Rule(Present(c.primaryKey), PRIMARY_KEY_REQUIRED) ]
  }

  function UserConfigRules(c: UserConfig): seq<Rule> {
    [ Rule(Present(c.userId), USER_ID_REQUIRED),
      Rule(Present(c.userSecret), USER_SECRET_REQUIRED),
      Rule(IsUuidV4Id(c.userId), USER_ID_NOT_UUID) ]
  }

  function ProductConfigRules(c: ProductConfig): seq<Rule> {
    [ Rule(Present(c.primaryKey), PRIMARY_KEY_REQUIRED),
      Rule(Present(c.userId), USER_ID_REQUIRED),
      Rule(Present(c.userSecret), USER_SECRET_REQUIRED),
      Rule(IsUuidV4Id(c.userId), USER_ID_NOT_UUID) ]
  }

  // The validators.

  function ValidateGlobalConfig(c: GlobalConfig): (r: Result)
    ensures r == FirstFailure(GlobalConfigRules(c))
  {
    if !Present(c.callbackHost) then Err(CALLBACK_HOST_REQUIRED)
    else if NeedsBaseUrl(c.environment) && !Present(c.baseUrl) then Err(BASE_URL_REQUIRED)
    else Ok
  }

  function ValidateSubscriptionConfig(c: SubscriptionConfig): (r: Result)
    ensures r == FirstFailure(SubscriptionConfigRules(c))
  {
    if !Present(c.primaryKey) then Err(PRIMARY_KEY_REQUIRED) else Ok
  }

  function ValidateUserConfig(c: UserConfig): (r: Result)
    ensures r == FirstFailure(UserConfigRules(c))
  {
    if !Present(c.userId) then Err(USER_ID_REQUIRED)
    else if !Present(c.userSecret) then Err(USER_SECRET_REQUIRED)
    else if !IsUuidV4(c.userId.value) then
      FirstFailureReportsFirstBroken(UserConfigRules(c), 2);
      Err(USER_ID_NOT_UUID)
    else Ok
  }

  function ValidateProductConfig(c: ProductConfig): (r: Result)
    ensures r == FirstFailure(ProductConfigRules(c))
  {
    if !Present(c.primaryKey) then Err(PRIMARY_KEY_REQUIRED)
    else if !Present(c.userId) then Err(USER_ID_REQUIRED)
    else if !Present(c.userSecret) then
      FirstFailureReportsFirstBroken(ProductConfigRules(c), 2);
      Err(USER_SECRET_REQUIRED)
    else if !IsUuidV4(c.userId.value) then
      FirstFailureReportsFirstBroken(ProductConfigRules(c), 3);
      Err(USER_ID_NOT_UUID)
    else Ok
  }

  // Global configuration.

  /** A missing callback host is reported first, whatever else the configuration holds. */
  lemma CallbackHostCheckedFirst(c: GlobalConfig)
    ensures !Present(c.callbackHost) ==> ValidateGlobalConfig(c) == Err(CALLBACK_HOST_REQUIRED)
  {
  }

  /**
   * Without an environment, or in the sandbox, the base URL is never looked
   * at: any value of it gives the same outcome, and a callback host suffices.
   */
  lemma BaseUrlIgnoredUnlessNeeded(c: GlobalConfig, baseUrl: Option<string>)
    requires !NeedsBaseUrl(c.environment)
    ensures ValidateGlobalConfig(c.(baseUrl := baseUrl)) == ValidateGlobalConfig(c)
    ensures ValidateGlobalConfig(c).Ok? <==> Present(c.callbackHost)
  {
  }

  /** In any other named environment the base URL decides the outcome. */
  lemma BaseUrlRequiredOutsideSandbox(c: GlobalConfig)
    requires Present(c.callbackHost) && NeedsBaseUrl(c.environment)
    ensures !Present(c.baseUrl) ==> ValidateGlobalConfig(c) == Err(BASE_URL_REQUIRED)
    ensures Present(c.baseUrl) ==> ValidateGlobalConfig(c) == Ok
  {
  }

  // Subscription configuration.

  /** The primary key is the one requirement: its absence is the only failure. */
  lemma SubscriptionConfigOnlyNeedsPrimaryKey(c: SubscriptionConfig)
    ensures ValidateSubscriptionConfig(c) == Err(PRIMARY_KEY_REQUIRED) <==> !Present(c.primaryKey)
    ensures ValidateSubscriptionConfig(c) == Ok <==> Present(c.primaryKey)
  {
  }

  // User configuration.

  /** A user configuration is accepted exactly when both fields are given and the id is a version-4 UUID. */
  lemma UserConfigAccepts(c: UserConfig)
    ensures ValidateUserConfig(c) == Ok <==> Present(c.userId) && Present(c.userSecret) && IsUuidV4(c.userId.value)
  {
  }

  /** The format of the id is reported only once both fields are present. */
  lemma UserConfigFormatCheckedLast(c: UserConfig)
    ensures ValidateUserConfig(c) == Err(USER_ID_NOT_UUID)
      <==> Present(c.userId) && Present(c.userSecret) && !IsUuidV4(c.userId.value)
  {
  }

  /** Once a rule is broken, no later rule's message is reported. */
  lemma UserConfigNeverReportsLater(c: UserConfig, i: int, j: int)
    requires 0 <= i < j < 3 && !UserConfigRules(c)[i].holds
    ensures ValidateUserConfig(c) != Err(UserConfigRules(c)[j].message)
  {
    FirstFailureNeverReportsLater(UserConfigRules(c), i, j);
  }

  /** Any identifier the version-4 generator produces is accepted, with any secret. */
  lemma UserConfigAcceptsGeneratedUuid(random: seq<Byte>, userSecret: string)
    requires |random| == 16 && userSecret != ""
    ensures ValidateUserConfig(UserConfig(Some(UuidV4FromRandom(random)), Some(userSecret))) == Ok
  {
    GeneratedUuidIsV4(random);
  }

  // Product configuration.

  /** A product configuration is accepted exactly when all three fields are given and the id is a version-4 UUID. */
  lemma ProductConfigAccepts(c: ProductConfig)
    ensures ValidateProductConfig(c) == Ok
      <==> Present(c.primaryKey) && Present(c.userId) && Present(c.userSecret) && IsUuidV4(c.userId.value)
  {
  }

  /**
   * Checking a product configuration is checking its subscription part and,
   * only if that passes, its user part.
   */
  lemma ProductConfigIsSubscriptionThenUser(c: ProductConfig)
    ensures ValidateProductConfig(c) ==
      if ValidateSubscriptionConfig(SubscriptionConfig(c.primaryKey)).Err?
      then ValidateSubscriptionConfig(SubscriptionConfig(c.primaryKey))
      else ValidateUserConfig(UserConfig(c.userId, c.userSecret))
  {
    var subscription, user := SubscriptionConfig(c.primaryKey), UserConfig(c.userId, c.userSecret);
    assert ProductConfigRules(c) == SubscriptionConfigRules(subscription) + UserConfigRules(user);
    FirstFailureAppend(SubscriptionConfigRules(subscription), UserConfigRules(user));
  }

  /** The format of the id is reported only once all three fields are present. */
  lemma ProductConfigFormatCheckedLast(c: ProductConfig)
    ensures ValidateProductConfig(c) == Err(USER_ID_NOT_UUID)
      <==> Present(c.primaryKey) && Present(c.userId) && Present(c.userSecret) && !IsUuidV4(c.userId.value)
  {
  }

  /** Once a rule is broken, no later rule's message is reported. */
  lemma ProductConfigNeverReportsLater(c: ProductConfig, i: int, j: int)
    requires 0 <= i < j < 4 && !ProductConfigRules(c)[i].holds
    ensures ValidateProductConfig(c) != Err(ProductConfigRules(c)[j].message)
  {
    FirstFailureNeverReportsLater(ProductConfigRules(c), i, j);
  }

  /** Any identifier the version-4 generator produces is accepted, with any key and secret. */
  lemma ProductConfigAcceptsGeneratedUuid(primaryKey: string, random: seq<Byte>, userSecret: string)
    requires primaryKey != "" && |random| == 16 && userSecret != ""
    ensures ValidateProductConfig(ProductConfig(Some(primaryKey), Some(UuidV4FromRandom(random)), Some(userSecret))) == Ok
  {
    GeneratedUuidIsV4(random);
  }
}
