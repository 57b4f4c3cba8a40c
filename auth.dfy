/**
 * The `auth` package's API-key extractor. GetAPIKey reads the first value of
 * the request's Authorization header and returns the token of an
 * `ApiKey <token>` credential, or one of two errors: the header is absent or
 * empty, or it is present but malformed.
 */
module Auth {
  import opened Wrappers
  import opened GoStrings

  /** The credential scheme the header must name. */
  const Scheme: string := "ApiKey"

  /** The character strings.Split separates fields on. */
  const Separator: char := ' '

  /**
   * No space, tab, carriage return or line feed in `s`. The lemmas below speak
   * only of such fields, the shapes the test exercises.
   */
  predicate NoWhitespace(s: string)
  {
    forall i :: 0 <= i < |s| ==> s[i] !in {' ', '\t', '\r', '\n'}
  }

  /** A field without whitespace has no separator in it. */
  lemma NoWhitespaceHasNoSeparator(s: string)
    requires NoWhitespace(s)
    ensures Separator !in s
  {
  }

  /** The two errors GetAPIKey can return. */
  datatype AuthError = NoAuthHeaderIncluded | MalformedAuthHeader

  /** The text of each error, as err.Error() gives it. */
  function Message(e: AuthError): (m: string)
    ensures e == MalformedAuthHeader ==> m == "malformed authorization header"
    ensures m != ""
  {
    match e
    case NoAuthHeaderIncluded => "no authorization header included"
    case MalformedAuthHeader => "malformed authorization header"
  }

  /**
   * What GetAPIKey returns: the key string and the error, where None stands
   * for Go's nil. The two are independent fields, as in Go's (string, error).
   */
  datatype Returned = Returned(key: string, err: Option<AuthError>)

  /**
   * GetAPIKey, given the first Authorization value (None when the header is
   * absent). An absent or empty value is NoAuthHeaderIncluded; a value whose
   * first space-separated field is not "ApiKey", or that has no second field,
   * is malformed; otherwise the second field is the key.
   */
  function GetAPIKey(authorization: Option<string>): (r: Returned)
    ensures r.err.Some? ==> r.key == ""
    ensures r.err == Some(NoAuthHeaderIncluded) <==> authorization in {None, Some("")}
    ensures r.err.None? ==> authorization.Some? && Scheme + [Separator] + r.key <= authorization.value
  {
    match authorization
    case None => Returned("", Some(NoAuthHeaderIncluded))
    case Some(value) =>
      if value == "" then Returned("", Some(NoAuthHeaderIncluded))
      else
        var fields := Split(value, Separator);
        if |fields| < 2 || fields[0] != Scheme then Returned("", Some(MalformedAuthHeader))
        else
          KeyPrefix(fields);
          Returned(fields[1], None)
  }

  /** Joined fields start with the first two fields and the separator between them. */
  lemma KeyPrefix(fields: seq<string>)
    requires |fields| >= 2
    ensures fields[0] + [Separator] + fields[1] <= Join(fields, Separator)
  {
    var tail := Join(fields[1..], Separator);
    assert fields[1..][0] == fields[1];
    if |fields| > 2 {
      assert tail == fields[1] + [Separator] + Join(fields[2..], Separator) by {
        assert fields[1..][1..] == fields[2..];
      }
    }
    assert fields[1] <= tail;
  }

  /** "ApiKey " followed by a non-empty token without whitespace yields exactly that token. */
  lemma KeyRoundTrip(token: string)
    requires token != "" && NoWhitespace(token)
    ensures GetAPIKey(Some(Scheme + [Separator] + token)) == Returned(token, None)
  {
    NoWhitespaceHasNoSeparator(token);
    SplitJoin([Scheme, token], Separator);
    assert Join([Scheme, token], Separator) == Scheme + [Separator] + token by {
      assert [Scheme, token][1..] == [token];
    }
  }

  /** A non-empty value with no whitespace at all has no token, so it is malformed. */
  lemma SingleFieldIsMalformed(value: string)
    requires value != "" && NoWhitespace(value)
    ensures GetAPIKey(Some(value)) == Returned("", Some(MalformedAuthHeader))
  {
    NoWhitespaceHasNoSeparator(value);
    SplitWithoutSeparator(value, Separator);
  }

  /** Two fields whose first is not "ApiKey" are malformed, never "no header". */
  lemma WrongSchemeIsMalformed(scheme: string, token: string)
    requires scheme != Scheme
    requires NoWhitespace(scheme) && NoWhitespace(token)
    ensures GetAPIKey(Some(scheme + [Separator] + token)) == Returned("", Some(MalformedAuthHeader))
  {
    NoWhitespaceHasNoSeparator(scheme);
    NoWhitespaceHasNoSeparator(token);
    SplitJoin([scheme, token], Separator);
    assert Join([scheme, token], Separator) == scheme + [Separator] + token by {
      assert [scheme, token][1..] == [token];
    }
  }

  /** The two errors are told apart by their messages (with the wording chosen above). */
  lemma ErrorsDistinguishable()
    ensures Message(NoAuthHeaderIncluded) != Message(MalformedAuthHeader)
  {
  }
}
