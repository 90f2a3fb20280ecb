/**
 * The cases of the validators' test suite, one lemma each, with the inputs
 * and the expected messages written out. Where a case draws a fresh
 * identifier from the version-4 generator, the lemma holds for every draw.
 */
module ValidateTests {
  import opened Wrappers
  import opened Uuid
  import opened ConfigValidators
  import opened RequestValidator

  // validateGlobalConfig

  lemma GlobalConfigWithoutCallbackHostThrows()
    ensures ValidateGlobalConfig(GlobalConfig(None, None, None)) == Err("callbackHost is required")
  {
  }

  lemma GlobalConfigWithCallbackHostPasses()
    ensures ValidateGlobalConfig(GlobalConfig(Some("example.com"), None, None)) == Ok
  {
  }

  lemma ProductionWithoutBaseUrlThrows()
    ensures ValidateGlobalConfig(GlobalConfig(Some("example.com"), None, Some("production")))
      == Err("baseUrl is required if environment is not sandbox")
  {
  }

  lemma ProductionWithBaseUrlPasses()
    ensures ValidateGlobalConfig(GlobalConfig(Some("example.com"), Some("mtn production base url"), Some("production"))) == Ok
  {
  }

  // validateProductConfig

  lemma ProductConfigWithoutPrimaryKeyThrows()
    ensures ValidateProductConfig(ProductConfig(None, None, None)) == Err("primaryKey is required")
  {
  }

  lemma ProductConfigWithoutUserIdThrows()
    ensures ValidateProductConfig(ProductConfig(Some("test primary key"), None, None)) == Err("userId is required")
  {
  }

  lemma ProductConfigWithoutUserSecretThrows()
    ensures ValidateProductConfig(ProductConfig(Some("test primary key"), Some("test user id"), None))
      == Err("userSecret is required")
  {
  }

  lemma ProductConfigWithInvalidUserIdThrows()
    ensures ValidateProductConfig(ProductConfig(Some("test primary key"), Some("test user id"), Some("test user secret")))
      == Err("userId must be a valid uuid v4")
  {
  }

  lemma ProductConfigWithGeneratedUserIdPasses(random: seq<Byte>)
    requires |random| == 16
    ensures ValidateProductConfig(ProductConfig(Some("test primary key"), Some(UuidV4FromRandom(random)), Some("test user secret"))) == Ok
  {
    ProductConfigAcceptsGeneratedUuid("test primary key", random, "test user secret");
  }

  // validateSubscriptionConfig

  lemma SubscriptionConfigWithoutPrimaryKeyThrows()
    ensures ValidateSubscriptionConfig(SubscriptionConfig(None)) == Err("primaryKey is required")
  {
  }

  lemma SubscriptionConfigWithPrimaryKeyPasses()
    ensures ValidateSubscriptionConfig(SubscriptionConfig(Some("test primary key"))) == Ok
  {
  }

  // validateUserConfig

  lemma UserConfigWithoutUserIdThrows()
    ensures ValidateUserConfig(UserConfig(None, None)) == Err("userId is required")
  {
  }

  lemma UserConfigWithoutUserSecretThrows()
    ensures ValidateUserConfig(UserConfig(Some("test user id"), None)) == Err("userSecret is required")
  {
  }

  lemma UserConfigWithInvalidUserIdThrows()
    ensures ValidateUserConfig(UserConfig(Some("test user id"), Some("test user secret"))) == Err("userId must be a valid uuid v4")
  {
  }

  lemma UserConfigWithGeneratedUserIdPasses(random: seq<Byte>)
    requires |random| == 16
    ensures ValidateUserConfig(UserConfig(Some(UuidV4FromRandom(random)), Some("test user secret"))) == Ok
  {
    UserConfigAcceptsGeneratedUuid(random, "test user secret");
  }

  /**
   * A fixed well-formed identifier, 1b9d6bcd-bbfd-4b2d-9b5d-ab8dfbbd4bed, in
   * place of a fresh draw. It is written as its five groups joined by hyphens
   * so that the proof can name each group without slicing the literal.
   */
  lemma UserConfigWithLiteralUuidPasses()
    ensures ValidateUserConfig(UserConfig(
      Some("1b9d6bcd" + "-" + "bbfd" + "-" + "4b2d" + "-" + "9b5d" + "-" + "ab8dfbbd4bed"),
      Some("test user secret"))) == Ok
  {
    JoinedGroupsIsUuidV4("1b9d6bcd", "bbfd", "4b2d", "9b5d", "ab8dfbbd4bed");
  }

  // validateRequestToPay

  lemma RequestWithoutAmountRejects()
    ensures ValidateRequestToPay(PaymentRequest(None, None, None)) == Err("amount is required")
  {
  }

  lemma RequestWithAlphabeticAmountRejects()
    ensures ValidateRequestToPay(PaymentRequest(Some("alphabetic"), None, None)) == Err("amount must be a number")
  {
    assert "alphabetic"[0] == 'a';
  }

  lemma RequestWithoutCurrencyRejects()
    ensures ValidateRequestToPay(PaymentRequest(Some("1000"), None, None)) == Err("currency is required")
  {
  }

  lemma RequestWithoutPayerRejects()
    ensures ValidateRequestToPay(PaymentRequest(Some("1000"), Some("UGX"), None)) == Err("payer is required")
  {
  }

  lemma RequestWithoutPartyIdRejects()
    ensures ValidateRequestToPay(PaymentRequest(Some("1000"), Some("UGX"), Some(Party(None, None))))
      == Err("payer.partyId is required")
  {
  }

  lemma RequestWithoutPartyIdTypeRejects()
    ensures ValidateRequestToPay(PaymentRequest(Some("1000"), Some("UGX"), Some(Party(Some("xxx"), None))))
      == Err("payer.partyIdType is required")
  {
  }
}
