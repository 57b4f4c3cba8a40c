# API-key extraction from the Authorization header

This project models `GetAPIKey` from the `auth` package of learn-cicd-starter.
The function reads the request's `Authorization` header and expects the custom
credential scheme `ApiKey <token>`. Like the Go function, the model returns a key string
and an error. The test table `internal/auth/auth_test.go` fixes five outcomes:

- `ApiKey my-secret-api-key-12345` gives the key `my-secret-api-key-12345` and a nil error;
- an absent header, or the value `""`, gives `ErrNoAuthHeaderIncluded` and an empty key;
- `Bearer my-token` (wrong scheme) and the bare `ApiKey` (scheme without any token) give
  the error `malformed authorization header` and an empty key.

The test fixes the behaviour only by example. The definition below is one reconstruction
that is consistent with its five rows:

1. take the first `Authorization` value (`None` when the header is absent);
2. an absent or empty value is `NoAuthHeaderIncluded`;
3. otherwise split the value on the space character, as Go's `strings.Split` does;
4. fewer than two fields, or a first field other than `ApiKey`, is `MalformedAuthHeader`;
5. otherwise the second field is the key, with a nil error.

Steps 3-5 are a choice: the test does not mention splitting. For inputs outside the tested
shapes (see "## Left out") they give an outcome, and the lemmas about scheme and token
speak only of fields without whitespace (no space, tab, carriage return or line feed), so
they do not rely on that outcome. For example, `ApiKey ` followed by nothing gives an
empty key and a nil error in the model, and no lemma states it.

Modules:

- `Wrappers` (`wrappers.dfy`): the `Option` type.
- `GoStrings` (`gostrings.dfy`): `Split` and its inverse `Join`, for a one-character separator.
- `Auth` (`auth.dfy`): the errors and their messages, the Go return pair `Returned`
  (key and error), `GetAPIKey` and the lemmas about it.
- `AuthTest` (`auth_test.dfy`): the test table as five `TestCase` constants. `Passes`
  is the set of comparisons the test loop makes for one row. There is one lemma per row
  proving that the row passes.

`GetAPIKey` is a function of its input. Two calls on the same input therefore give the
same result; no lemma is needed for that.

## Model

| member | source | states |
|---|---|---|
| GoStrings.Split | internal/auth/auth_test.go:19-21 | splitting a header value gives at least one field, no field holds a space, and joining the fields with spaces gives the value back |
| GoStrings.SplitJoin | internal/auth/auth_test.go:16-23 | splitting undoes joining whenever no field holds a space, so `ApiKey` plus a space plus a token splits into exactly those two fields |
| Auth.Message | internal/auth/auth_test.go:72-74 | the malformed error's message is `malformed authorization header`; no message is empty |
| Auth.GetAPIKey | internal/auth/auth_test.go:10-71 | on every input, a non-nil error goes with the empty key; the error is `NoAuthHeaderIncluded` exactly when the header is absent or empty; with a nil error, the value starts with `ApiKey`, a space and the returned key |
| Auth.KeyRoundTrip | internal/auth/auth_test.go:16-23 | for every non-empty token without whitespace, `ApiKey` plus a space plus the token gives exactly that token and a nil error |
| Auth.SingleFieldIsMalformed | internal/auth/auth_test.go:38-45 | a non-empty value without whitespace, such as the bare scheme `ApiKey`, gives the malformed error and an empty key |
| Auth.WrongSchemeIsMalformed | internal/auth/auth_test.go:30-37 | a value of two whitespace-free fields joined by a space, whose first field is not `ApiKey`, gives the malformed error, not the missing-header error |
| Auth.ErrorsDistinguishable | internal/auth/auth_test.go:72-74 | the missing-header and malformed errors have different messages; the missing-header text is the model's chosen wording (see "## Left out"), so this holds for that choice |
| AuthTest.PassingPinsOutcome | internal/auth/auth_test.go:58-74 | a row that passes the loop's comparisons pins the outcome: a nil expected error means exactly the expected key; a non-nil one means an error with the expected message and an empty expected key |
| AuthTest.ValidKeyPasses | internal/auth/auth_test.go:16-23 | `ApiKey my-secret-api-key-12345` yields key `my-secret-api-key-12345` and a nil error |
| AuthTest.MissingHeaderPasses | internal/auth/auth_test.go:24-29 | an absent header yields `ErrNoAuthHeaderIncluded` and an empty key |
| AuthTest.WrongSchemePasses | internal/auth/auth_test.go:30-37 | `Bearer my-token` yields the malformed error and an empty key |
| AuthTest.SchemeWithoutValuePasses | internal/auth/auth_test.go:38-45 | the bare `ApiKey` yields the malformed error and an empty key |
| AuthTest.EmptyValuePasses | internal/auth/auth_test.go:46-53 | the value `""` yields `ErrNoAuthHeaderIncluded` and an empty key |

## Left out

- The `net/http` `Header` type: case-insensitive key lookup and lists of values belong to the HTTP library. The input is the first `Authorization` value as an `Option<string>`.
- More than one `Authorization` value: the tests never supply one, and nothing is proved about it.
- Auth.GetAPIKey: its contract does not decide values of three or more fields, repeated spaces, tabs or other whitespace between scheme and token, or `ApiKey` followed by a space and nothing else. Its prefix clause does fix the separator to one space character, so `ApiKey` and a tab before a token never gives that token. The tests do not pin these cases. The definition gives them the split-based outcome (the second field, which may be empty). No lemma states that outcome: the lemmas about scheme and token require fields without whitespace. The only statement that reaches these inputs is the prefix clause just named.
- The wording of `ErrNoAuthHeaderIncluded` is defined outside the modelled file. The model uses `no authorization header included`; only its difference from the malformed message is proved.
- Go error identity: errors are compared only by kind and by message, as the test does.
- The `testing` harness (`t.Run`, `t.Errorf` and the loop over the table) is test plumbing. Each row is one lemma.
- The rest of the application (HTTP server, handlers, storage) is I/O and is not part of this model.
