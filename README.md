# Input validators of a mobile-money payment client

This project models, in Dafny, the input validators of a Node.js client for
a mobile-money payment gateway (momoapi-node). Before the client talks to
the gateway it checks its four configuration objects (global, product,
subscription, user) and every request-to-pay. Each validator is a fixed,
ordered list of checks. It either accepts its input or fails with exactly
one message: the message of the first check the input breaks. The messages
are part of the client's interface and are kept verbatim.

The implementation module (`src/validate`) is not part of this model. Its
observable contract is fixed by the test suite `tests/validate.test.ts`, and
the model follows that suite input by input and message by message.

Layout:

- `wrappers.dfy` (`Wrappers`): `Option` for optional fields; `Result = Ok | Err(msg)`
  for an outcome. A thrown assertion error or a rejected promise becomes `Err(msg)`.
- `rules.dfy` (`Rules`): fail-fast checking in general. A validator's rules are a
  sequence of `Rule(holds, message)`. `FirstFailure` is the reference meaning: the
  message of the first broken rule, or `Ok`. Lemmas prove three things about it. It
  reports the first broken rule. It never reports a rule after a broken one. Checking
  two lists in turn is checking their concatenation. `Present` is the presence test
  of the string fields: the field is set to a non-empty string, as JavaScript truthiness
  of a string makes it. The payer is a record, not a string: any payer object, even an
  empty one, counts as present, as JavaScript truthiness of an object makes it. The
  format rule on `userId` uses `IsUuidV4Id` (the id is set and passes `IsUuidV4`), not
  `Present`.
- `uuid.dfy` (`Uuid`): the textual UUID form of section 3 of RFC 4122. `IsUuidV4` adds
  two conditions: the version nibble is 4 (section 4.1.3) and the variant nibble is
  8, 9, a or b (section 4.1.1). The version-4 generator the tests call is modelled as
  `UuidV4FromRandom`, a function of its 16 random bytes. The source shows only the call
  of the generator; the bit setting and the lowercase layout follow section 4.4 of
  RFC 4122, and the library's own body is not part of this model. Lemmas prove that parsing
  undoes formatting for any 16 bytes, and that formatting undoes parsing on lowercase
  text (an uppercase text comes back in lower case). They also prove that the generator's outputs are exactly
  the lowercase texts `IsUuidV4` accepts.
- `config_validators.dfy` (`ConfigValidators`): the four configuration validators.
  Each one's contract ties it to `FirstFailure` over its own rule list. Lemmas state
  the rules the tests exercise.
- `request_validator.dfy` (`RequestValidator`): the request-to-pay validator and its lemmas.
- `validate_tests.dfy` (`ValidateTests`): every case of the test suite as a lemma with
  its input and expected message written out. A case that calls the random generator
  becomes a lemma over every possible draw of random bytes.

Every validator is a pure function, so calling it twice on the same input
gives the same outcome. That holds by construction and needs no lemma.

Three of the suite's success cases (lines 107, 130 and 172) are titled
"throws an error", but each asserts that no error is thrown. The model
follows the assertions.

## Model

| member | source | states |
|---|---|---|
| `Rules.FirstFailure` | tests/validate.test.ts:66-104 | The fail-fast outcome succeeds exactly when every rule holds |
| `Rules.Present` | tests/validate.test.ts:17-23 | A string field counts as given exactly when it is set and non-empty; its absence triggers each "... is required" message |
| `Rules.FirstFailureReportsFirstBroken` | tests/validate.test.ts:66-104 | When rule i is the first broken rule, the outcome is rule i's message |
| `Rules.FirstFailureNeverReportsLater` | tests/validate.test.ts:183-252 | If messages are distinct and rule i is broken, no rule after i is ever reported, whatever else fails |
| `Rules.FirstFailureAppend` | tests/validate.test.ts:65-181 | Checking list a and then list b, stopping at a's failure, is the same as checking a + b |
| `Uuid.IsUuidV4` | tests/validate.test.ts:94-104 | The text is 8-4-4-4-12 hex groups joined by hyphens, in either case, with version nibble 4 and variant nibble 8, 9, a or b; its contract states that the version nibble's value is 4 and the variant nibble's top two bits are 10 |
| `Uuid.UuidV4FromRandom` | tests/validate.test.ts:111 | The `uuid()` call, with its 16 random bytes as a parameter: byte 6's high nibble becomes 4, byte 8's top two bits become 10, and the bytes are written as 36 characters of lowercase 8-4-4-4-12 hex, following section 4.4 of RFC 4122; the library's body is not part of this model |
| `Uuid.JoinedGroupsIsUuidV4` | tests/validate.test.ts:94-116 | Hex groups of 8-4-4-4-12 joined by hyphens are a v4 text iff group 3 starts with 4 and group 4 starts with 8, 9, a or b |
| `Uuid.FormatIsCanonical` | tests/validate.test.ts:111 | Formatting any 16 bytes gives a lowercase 8-4-4-4-12 hex text |
| `Uuid.UuidBytesOfFormat` | tests/validate.test.ts:111 | Parsing back the text of any 16 bytes gives those bytes |
| `Uuid.FormatOfUuidBytes` | tests/validate.test.ts:111 | Formatting the bytes of a lowercase UUID text gives that text back |
| `Uuid.GeneratedUuidIsV4` | tests/validate.test.ts:106-116 | Every identifier the version-4 generator can produce, for any random bytes, passes the v4 check |
| `Uuid.LowerCaseUuidV4IsGenerated` | tests/validate.test.ts:94-116 | Every lowercase text that passes the v4 check is the generator's output for some random bytes |
| `Uuid.V4BitsAlreadySet` | tests/validate.test.ts:94-116 | The bytes of a v4 text already carry the version and variant bits, so the generator's adjustment leaves them unchanged |
| `ConfigValidators.NeedsBaseUrl` | tests/validate.test.ts:34-60 | A base URL is demanded exactly when an environment is given and it is not "sandbox" |
| `ConfigValidators.ValidateGlobalConfig` | tests/validate.test.ts:16-63 | Reports the first broken rule of: callbackHost present; baseUrl present when environment is named and not "sandbox" |
| `ConfigValidators.ValidateSubscriptionConfig` | tests/validate.test.ts:119-138 | Reports the first broken rule of: primaryKey present |
| `ConfigValidators.ValidateUserConfig` | tests/validate.test.ts:140-181 | Reports the first broken rule of: userId present, userSecret present, userId a v4 UUID |
| `ConfigValidators.ValidateProductConfig` | tests/validate.test.ts:65-117 | Reports the first broken rule of: primaryKey present, userId present, userSecret present, userId a v4 UUID |
| `ConfigValidators.CallbackHostCheckedFirst` | tests/validate.test.ts:17-23 | A missing callbackHost gives "callbackHost is required", whatever else is set |
| `ConfigValidators.BaseUrlIgnoredUnlessNeeded` | tests/validate.test.ts:26-31 | With no environment or the sandbox, baseUrl never changes the outcome, and a callbackHost alone is accepted |
| `ConfigValidators.BaseUrlRequiredOutsideSandbox` | tests/validate.test.ts:34-60 | In another named environment, a missing baseUrl gives the baseUrl message and any baseUrl makes the config pass |
| `ConfigValidators.SubscriptionConfigOnlyNeedsPrimaryKey` | tests/validate.test.ts:119-138 | Fails with "primaryKey is required" iff primaryKey is missing, and passes otherwise |
| `ConfigValidators.UserConfigAccepts` | tests/validate.test.ts:140-181 | Passes iff userId and userSecret are present and userId is a v4 UUID |
| `ConfigValidators.UserConfigFormatCheckedLast` | tests/validate.test.ts:150-169 | The UUID message is reported iff both fields are present and userId is not a v4 UUID, so presence is checked before format |
| `ConfigValidators.UserConfigNeverReportsLater` | tests/validate.test.ts:140-169 | Once one rule is broken, the message of a later rule is never reported |
| `ConfigValidators.UserConfigAcceptsGeneratedUuid` | tests/validate.test.ts:171-180 | A generated v4 id with any non-empty secret is accepted |
| `ConfigValidators.ProductConfigAccepts` | tests/validate.test.ts:65-117 | Passes iff primaryKey, userId and userSecret are present and userId is a v4 UUID |
| `ConfigValidators.ProductConfigIsSubscriptionThenUser` | tests/validate.test.ts:65-181 | Product checking is the subscription check on primaryKey, then, if it passes, the user check on userId and userSecret |
| `ConfigValidators.ProductConfigFormatCheckedLast` | tests/validate.test.ts:83-104 | The UUID message is reported iff all three fields are present and userId is not a v4 UUID |
| `ConfigValidators.ProductConfigNeverReportsLater` | tests/validate.test.ts:66-104 | Once one rule is broken, the message of a later rule is never reported; an empty config gives only "primaryKey is required" |
| `ConfigValidators.ProductConfigAcceptsGeneratedUuid` | tests/validate.test.ts:106-116 | A generated v4 id with any non-empty key and secret is accepted |
| `RequestValidator.IsNumeric` | tests/validate.test.ts:193-211 | Stand-in for "the amount is a number": a non-empty string of decimal digits, so "alphabetic" fails and "1000" passes (narrower than JavaScript, see "## Left out") |
| `RequestValidator.ValidateRequestToPay` | tests/validate.test.ts:183-252 | Reports the first broken rule of: amount present, amount numeric, currency present, payer present, payer.partyId present, payer.partyIdType present |
| `RequestValidator.RequestToPayAccepts` | tests/validate.test.ts:183-252 | A request passes iff all six conditions hold |
| `RequestValidator.RequestToPayNeverReportsLater` | tests/validate.test.ts:183-252 | Once one rule is broken, the message of a later rule is never reported |
| `RequestValidator.MissingPayerReportedAsPayer` | tests/validate.test.ts:213-223 | With amount and currency valid, a missing payer gives "payer is required", never a payer-field message |
| `ValidateTests.GlobalConfigWithoutCallbackHostThrows` | tests/validate.test.ts:17-23 | `{}` fails with "callbackHost is required" |
| `ValidateTests.GlobalConfigWithCallbackHostPasses` | tests/validate.test.ts:26-31 | `{ callbackHost }` passes |
| `ValidateTests.ProductionWithoutBaseUrlThrows` | tests/validate.test.ts:36-48 | production without baseUrl fails with the baseUrl message |
| `ValidateTests.ProductionWithBaseUrlPasses` | tests/validate.test.ts:50-60 | production with baseUrl passes |
| `ValidateTests.ProductConfigWithoutPrimaryKeyThrows` | tests/validate.test.ts:66-73 | `{}` fails with "primaryKey is required" |
| `ValidateTests.ProductConfigWithoutUserIdThrows` | tests/validate.test.ts:75-81 | primaryKey only fails with "userId is required" |
| `ValidateTests.ProductConfigWithoutUserSecretThrows` | tests/validate.test.ts:83-92 | a non-UUID userId without a secret fails with "userSecret is required" |
| `ValidateTests.ProductConfigWithInvalidUserIdThrows` | tests/validate.test.ts:94-104 | all fields with a non-UUID userId fail with the UUID message |
| `ValidateTests.ProductConfigWithGeneratedUserIdPasses` | tests/validate.test.ts:106-116 | all fields with a generated userId pass, for every random draw |
| `ValidateTests.SubscriptionConfigWithoutPrimaryKeyThrows` | tests/validate.test.ts:120-127 | `{}` fails with "primaryKey is required" |
| `ValidateTests.SubscriptionConfigWithPrimaryKeyPasses` | tests/validate.test.ts:129-137 | `{ primaryKey }` passes |
| `ValidateTests.UserConfigWithoutUserIdThrows` | tests/validate.test.ts:141-148 | `{}` fails with "userId is required" |
| `ValidateTests.UserConfigWithoutUserSecretThrows` | tests/validate.test.ts:150-158 | a non-UUID userId alone fails with "userSecret is required" |
| `ValidateTests.UserConfigWithInvalidUserIdThrows` | tests/validate.test.ts:160-169 | both fields with a non-UUID userId fail with the UUID message |
| `ValidateTests.UserConfigWithGeneratedUserIdPasses` | tests/validate.test.ts:171-180 | a generated userId with a secret passes, for every random draw |
| `ValidateTests.UserConfigWithLiteralUuidPasses` | tests/validate.test.ts:171-180 | a fixed well-formed v4 literal with a secret passes |
| `ValidateTests.RequestWithoutAmountRejects` | tests/validate.test.ts:184-191 | `{}` is rejected with "amount is required" |
| `ValidateTests.RequestWithAlphabeticAmountRejects` | tests/validate.test.ts:193-200 | amount "alphabetic" is rejected with "amount must be a number" |
| `ValidateTests.RequestWithoutCurrencyRejects` | tests/validate.test.ts:202-211 | amount "1000" alone is rejected with "currency is required" |
| `ValidateTests.RequestWithoutPayerRejects` | tests/validate.test.ts:213-223 | amount and currency alone are rejected with "payer is required" |
| `ValidateTests.RequestWithoutPartyIdRejects` | tests/validate.test.ts:225-236 | an empty payer is rejected with "payer.partyId is required" |
| `ValidateTests.RequestWithoutPartyIdTypeRejects` | tests/validate.test.ts:238-251 | a payer with only partyId is rejected with "payer.partyIdType is required" |

## Left out

- `src/validate` is not part of this model. The validators are modelled from the test suite's inputs and expected messages, so any behaviour the tests do not exercise is not pinned down by the source.
- IsNumeric: a conservative stand-in for "the amount is a number". It accepts only non-empty strings of ASCII digits. JavaScript's number parsing, which can also accept signs, decimals, exponents and surrounding blanks, is floating-point text parsing that is not visible here. The suite fixes only that "alphabetic" is not numeric and "1000" is.
- Present: a string field counts as given when it is set to a non-empty string, which is JavaScript truthiness for strings. Non-string values in the string fields (numbers, booleans, null) are not modelled. The payer is modelled as an optional record, present whenever it is set, even when empty.
- The promise around `validateRequestToPay` is not modelled. The check never waits, so the model returns the outcome directly.
- The `AssertionError` exception is not modelled. A failure is `Err` with its one message. chai's substring matching of messages is modelled as exact equality.
- The `uuid/v4` random generator is not modelled as a source of randomness. Its 16 random bytes are a parameter of `UuidV4FromRandom`.
- `environment` is modelled as a free string, not an enumeration. `src/types` is not part of this model, and request fields other than amount, currency and payer are not part of this model.
- The mocha/chai harness, HTTP transport and token handling are not part of this model.
