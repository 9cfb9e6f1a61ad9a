/**
 * `Authentication`: the value of an HTTP `Authorization` header, built once by
 * one of two factories and never changed afterwards. Basic credentials follow
 * section 2 of RFC 7617, bearer tokens section 2.1 of RFC 6750.
 */
module Authentication {
  import opened Wrappers
  import opened Chunks
  import Base64

  datatype AuthType = BASIC | BEARER

  const BASIC_PREFIX: string := "Basic "
  const BEARER_PREFIX: string := "Bearer "

  /** The header prefix of each kind of authentication. */
  function PrefixOf(t: AuthType): string
  {
    match t
    case BASIC => BASIC_PREFIX
    case BEARER => BEARER_PREFIX
  }

  /**
   * An immutable authentication value. In the library the constructor is
   * private, so every value comes from `WithBasicAuthentication` or
   * `WithBearerAuthentication`; `Made` below is the shape those leave, and
   * `IssuedAuthentication` the values of that shape.
   */
  datatype Authentication = Authentication(authType: AuthType, token: string)
  {
    /** `getRequestHeader()`: the stored header value, which for a factory's value starts with its type's prefix. */
    function GetRequestHeader(): (r: string)
      ensures r == token
      ensures Made(this) ==> |r| >= |PrefixOf(authType)| && r[..|PrefixOf(authType)|] == PrefixOf(authType)
    {
      token
    }
  }

  /**
   * The values the two factories can return: a basic header is "Basic "
   * followed by text that decodes as base 64, a bearer header is "Bearer "
   * followed by anything.
   */
  predicate Made(a: Authentication)
  {
    && |a.token| >= |PrefixOf(a.authType)|
    && a.token[..|PrefixOf(a.authType)|] == PrefixOf(a.authType)
    && (a.authType == BASIC ==> Base64.Decode(a.token[|BASIC_PREFIX|..]).Some?)
  }

  /** An authentication value that Java code can hold: one a factory made. */
  type IssuedAuthentication = a: Authentication | Made(a) witness Authentication(BEARER, BEARER_PREFIX)

  /**
   * `withBasicAuthentication(username, password)`: "Basic " followed by the
   * base 64 encoding of the bytes of "username:password". `getBytes` is
   * `String.getBytes()`, whose result depends on the platform's default charset.
   * Any strings are accepted, including a user name containing ':' and empty strings.
   */
  function WithBasicAuthentication(username: string, password: string, getBytes: string -> seq<Byte>): (a: IssuedAuthentication)
    ensures a.authType == BASIC
    ensures |a.GetRequestHeader()| >= |BASIC_PREFIX| && a.GetRequestHeader()[..|BASIC_PREFIX|] == BASIC_PREFIX
    ensures Base64.Decode(a.GetRequestHeader()[|BASIC_PREFIX|..]) == Some(getBytes(username + ":" + password))
  {
    var encoded := Base64.Encode(getBytes(username + ":" + password));
    Base64.DecodeEncode(getBytes(username + ":" + password));
    assert (BASIC_PREFIX + encoded)[|BASIC_PREFIX|..] == encoded;
    Authentication(BASIC, BASIC_PREFIX + encoded)
  }

  /** `withBearerAuthentication(token)`: "Bearer " followed by the token, verbatim. */
  function WithBearerAuthentication(token: string): (a: IssuedAuthentication)
    ensures a.authType == BEARER
    ensures |a.GetRequestHeader()| == |BEARER_PREFIX| + |token|
    ensures a.GetRequestHeader()[..|BEARER_PREFIX|] == BEARER_PREFIX
    ensures a.GetRequestHeader()[|BEARER_PREFIX|..] == token
  {
    Authentication(BEARER, BEARER_PREFIX + token)
  }

  /**
   * The header is pinned down by its contract: the only text after "Basic "
   * that decodes to the credential bytes is their encoding, so any header
   * meeting `WithBasicAuthentication`'s ensures is the one it returns.
   */
  lemma BasicHeaderIsDetermined(username: string, password: string, getBytes: string -> seq<Byte>, s: string)
    requires Base64.Decode(s) == Some(getBytes(username + ":" + password))
    ensures WithBasicAuthentication(username, password, getBytes).GetRequestHeader() == BASIC_PREFIX + s
  {
    Base64.DecodeCanonical(s, getBytes(username + ":" + password));
  }

  /**
   * The converse of the factories' contracts: a value of the factories' shape
   * is what one of them returns. A basic one is the basic factory's value for
   * any credentials whose bytes are the ones its header decodes to; a bearer
   * one is the bearer factory's value for the text after "Bearer ".
   */
  lemma IssuedComesFromFactory(a: Authentication, username: string, password: string, getBytes: string -> seq<Byte>)
    requires Made(a)
    ensures a.authType == BASIC && getBytes(username + ":" + password) == Base64.Decode(a.token[|BASIC_PREFIX|..]).value
        ==> WithBasicAuthentication(username, password, getBytes) == a
    ensures a.authType == BEARER ==> WithBearerAuthentication(a.token[|BEARER_PREFIX|..]) == a
  {
    if a.authType == BASIC {
      var rest := a.token[|BASIC_PREFIX|..];
      var b := Base64.Decode(rest).value;
      if getBytes(username + ":" + password) == b {
        Base64.DecodeCanonical(rest, b);
        assert a.token == BASIC_PREFIX + rest;
        assert WithBasicAuthentication(username, password, getBytes).token == BASIC_PREFIX + Base64.Encode(b);
      }
    } else {
      assert a.token == BEARER_PREFIX + a.token[|BEARER_PREFIX|..];
    }
  }

  /** Two basic headers are equal exactly when the credential bytes they encode are equal. */
  lemma BasicHeaderDeterminesCredentials(u1: string, p1: string, u2: string, p2: string, getBytes: string -> seq<Byte>)
    ensures WithBasicAuthentication(u1, p1, getBytes) == WithBasicAuthentication(u2, p2, getBytes)
        <==> getBytes(u1 + ":" + p1) == getBytes(u2 + ":" + p2)
  {
    Base64.EncodeInjective(getBytes(u1 + ":" + p1), getBytes(u2 + ":" + p2));
    var a1, a2 := WithBasicAuthentication(u1, p1, getBytes), WithBasicAuthentication(u2, p2, getBytes);
    if a1 == a2 {
      assert a1.token[|BASIC_PREFIX|..] == a2.token[|BASIC_PREFIX|..];
    }
  }

  /**
   * Nothing rejects a ':' in the user name (section 2 of RFC 7617 forbids it),
   * so different credential pairs can produce the same header.
   */
  lemma ColonInUserNameIsAmbiguous(user: string, rest: string, password: string, getBytes: string -> seq<Byte>)
    ensures WithBasicAuthentication(user + ":" + rest, password, getBytes)
         == WithBasicAuthentication(user, rest + ":" + password, getBytes)
  {
    assert (user + ":" + rest) + ":" + password == user + ":" + (rest + ":" + password);
  }

  /** Two bearer headers are equal exactly when the tokens are. */
  lemma BearerHeaderDeterminesToken(t1: string, t2: string)
    ensures WithBearerAuthentication(t1) == WithBearerAuthentication(t2) <==> t1 == t2
  {
    if WithBearerAuthentication(t1) == WithBearerAuthentication(t2) {
      assert WithBearerAuthentication(t1).token[|BEARER_PREFIX|..] == t1;
    }
  }
}
