/**
 * The table-driven test of GetAPIKey: each row is a header value with the
 * key and error it must produce, and `Passes` is what the test loop checks
 * of one row. One lemma per row proves that the row passes.
 */
module AuthTest {
  import opened Wrappers
  import opened Auth

  /**
   * One row of the table. `authorization` is the first Authorization value
   * of the row's header set (None for an empty header set), and
   * `expectedError` is the expected error's message (None for nil).
   */
  datatype TestCase = TestCase(
    name: string,
    authorization: Option<string>,
    expectedKey: string,
    expectedError: Option<string>)

  /** The comparisons the test loop makes for one row. */
  predicate Passes(tc: TestCase)
  {
    var r := GetAPIKey(tc.authorization);
    var err := r.err;
    && r.key == tc.expectedKey
    && !(tc.expectedError.Some? && err.None?)
    && !(tc.expectedError.None? && err.Some?)
    && (tc.expectedError.Some? && err.Some? ==> Message(err.value) == tc.expectedError.value)
  }

  /**
   * What passing a row means: a nil expected error pins the exact key, and a
   * non-nil one pins the error, by its message, and an empty key.
   */
  lemma PassingPinsOutcome(tc: TestCase)
    requires Passes(tc)
    ensures tc.expectedError.None? ==> GetAPIKey(tc.authorization) == Returned(tc.expectedKey, None)
    ensures tc.expectedError.Some? ==>
      && GetAPIKey(tc.authorization).err.Some?
      && Message(GetAPIKey(tc.authorization).err.value) == tc.expectedError.value
      && tc.expectedKey == ""
  {
  }

  const ValidKey := TestCase(
    "valid API key with correct format",
    Some("ApiKey my-secret-api-key-12345"),
    "my-secret-api-key-12345",
    None)

  const MissingHeader := TestCase(
    "missing Authorization header",
    None,
    "",
    Some(Message(NoAuthHeaderIncluded)))

  const WrongScheme := TestCase(
    "malformed Authorization header - wrong scheme",
    Some("Bearer my-token"),
    "",
    Some("malformed authorization header"))

  const SchemeWithoutValue := TestCase(
    "malformed Authorization header - only ApiKey without value",
    Some("ApiKey"),
    "",
    Some("malformed authorization header"))

  const EmptyValue := TestCase(
    "empty Authorization header value",
    Some(""),
    "",
    Some(Message(NoAuthHeaderIncluded)))

  /** A row whose value is "ApiKey " and its expected key (without whitespace), with a nil expected error, passes. */
  lemma WellFormedRowPasses(tc: TestCase)
    requires tc.expectedKey != "" && NoWhitespace(tc.expectedKey)
    requires tc.authorization == Some(Scheme + [Separator] + tc.expectedKey)
    requires tc.expectedError == None
    ensures Passes(tc)
  {
    KeyRoundTrip(tc.expectedKey);
  }

  /** The first row's value is "ApiKey " followed by its expected key. */
  lemma ValidKeyShape()
    ensures ValidKey.authorization == Some(Scheme + [Separator] + ValidKey.expectedKey)
  {
    var value := ValidKey.authorization.value;
    assert value[..6] == Scheme && value[6] == Separator && value[7..] == ValidKey.expectedKey;
    assert value == value[..6] + [value[6]] + value[7..];
  }

  lemma ValidKeyPasses()
    ensures Passes(ValidKey)
  {
    ValidKeyShape();
    WellFormedRowPasses(ValidKey);
  }

  lemma MissingHeaderPasses()
    ensures Passes(MissingHeader)
  {
  }

  lemma WrongSchemePasses()
    ensures Passes(WrongScheme)
  {
    WrongSchemeIsMalformed("Bearer", "my-token");
    assert "Bearer" + [Separator] + "my-token" == "Bearer my-token";
  }

  lemma SchemeWithoutValuePasses()
    ensures Passes(SchemeWithoutValue)
  {
    SingleFieldIsMalformed("ApiKey");
  }

  lemma EmptyValuePasses()
    ensures Passes(EmptyValue)
  {
  }
}
