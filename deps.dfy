/** Reading the bearer token out of an `Authorization` header (`_get_bearer_token`). */
module Deps {
  import opened Common
  import opened Text

  const MissingHeader: string := "Missing Authorization header"
  const InvalidHeader: string := "Invalid Authorization header"

  /** `h.split(" ", 1)`: the text before the first space and the text after it, or
      None when h has no space (a one-element list in Python). */
  function SplitOnce(h: string): (r: Option<(string, string)>)
    ensures r.None? <==> ' ' !in h
    ensures r.Some? ==> h == r.value.0 + " " + r.value.1 && ' ' !in r.value.0
  {
    match IndexOf(h, ' ')
    case None => None
    case Some(k) =>
      assert h == h[..k] + " " + h[k + 1..];
      Some((h[..k], h[k + 1..]))
  }

  /** Splitting at the first space undoes joining a space-free scheme to any rest. */
  lemma SplitOnceJoin(scheme: string, rest: string)
    requires ' ' !in scheme
    ensures SplitOnce(scheme + " " + rest) == Some((scheme, rest))
  {
    var h := scheme + " " + rest;
    IndexAfterPrefix(scheme, ' ', rest);
    assert h[..|scheme|] == scheme;
    assert h[|scheme| + 1..] == rest;
  }

  /** `_get_bearer_token`: a missing or empty header, a header without a space and a
      scheme other than "bearer" in any case are refused; otherwise the rest of the
      header after the first space, stripped. */
  function GetBearerToken(authorization: Option<string>): (r: Result<string, Error>)
    ensures r == Err(Unauthorized(MissingHeader)) <==> authorization.None? || authorization.value == ""
    ensures r.Err? ==> r.error == Unauthorized(MissingHeader) || r.error == Unauthorized(InvalidHeader)
    ensures authorization.Some? && authorization.value != "" && ' ' !in authorization.value
            ==> r == Err(Unauthorized(InvalidHeader))
    ensures r.Ok? ==> IsTrimmed(r.value) && |r.value| < |authorization.value|
  {
    if authorization.None? || authorization.value == "" then Err(Unauthorized(MissingHeader))
    else match SplitOnce(authorization.value)
      case None => Err(Unauthorized(InvalidHeader))
      case Some((scheme, rest)) =>
        if Lower(scheme) != "bearer" then Err(Unauthorized(InvalidHeader))
        else Ok(Strip(rest))
  }

  /** A bearer scheme in any case, a space, and a token with whitespace around it give the
      token back, inner spaces included. */
  lemma BearerAccepted(scheme: string, pre: string, token: string, post: string)
    requires ' ' !in scheme && Lower(scheme) == "bearer"
    requires AllSpace(pre) && AllSpace(post) && IsTrimmed(token)
    ensures GetBearerToken(Some(scheme + " " + (pre + token + post))) == Ok(token)
  {
    SplitOnceJoin(scheme, pre + token + post);
    StripPadded(pre, token, post);
  }

  /** The header a client builds from a token yields that token. */
  lemma BearerRoundTrip(token: string)
    requires IsTrimmed(token)
    ensures GetBearerToken(Some("Bearer " + token)) == Ok(token)
  {
    assert Lower("Bearer") == "bearer" by {
      assert Lower("Bearer")[0] == LowerChar('B') == 'b';
    }
    assert "Bearer " + token == "Bearer" + " " + ([] + token + []);
    BearerAccepted("Bearer", [], token, []);
  }

  /** "Bearer " followed only by whitespace is accepted with an empty token. */
  lemma BlankTokenAccepted(ws: string)
    requires AllSpace(ws)
    ensures GetBearerToken(Some("Bearer " + ws)) == Ok("")
  {
    assert Lower("Bearer") == "bearer" by {
      assert Lower("Bearer")[0] == LowerChar('B') == 'b';
    }
    assert "Bearer " + ws == "Bearer" + " " + (ws + [] + []);
    BearerAccepted("Bearer", ws, [], []);
  }

  /** Any scheme other than "bearer", compared case-insensitively, is invalid. */
  lemma WrongSchemeRejected(scheme: string, rest: string)
    requires ' ' !in scheme && Lower(scheme) != "bearer"
    ensures GetBearerToken(Some(scheme + " " + rest)) == Err(Unauthorized(InvalidHeader))
  {
    SplitOnceJoin(scheme, rest);
  }

  /** Every accepted header is a bearer scheme, a space, and a rest that strips to the token. */
  lemma AcceptedHeaderShape(h: string)
    requires GetBearerToken(Some(h)).Ok?
    ensures exists scheme, rest ::
      && h == scheme + " " + rest
      && ' ' !in scheme
      && Lower(scheme) == "bearer"
      && GetBearerToken(Some(h)).value == Strip(rest)
  {
    var (scheme, rest) := SplitOnce(h).value;
    assert h == scheme + " " + rest;
  }
}
