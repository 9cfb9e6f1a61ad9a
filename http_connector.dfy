/**
 * `HttpConnector`: the non-network logic of opening a connection: scheme
 * dispatch, the configured request method and headers, the trust-everything
 * TLS policy, the connect-timeout bookkeeping, and reading a whole response
 * body into a string.
 */
module Http {
  import opened Wrappers
  import opened Chunks
  import opened Strings
  import opened Net

  /** Which branch `getConnection` takes for a protocol. */
  datatype Scheme = Plain | Secure | Unsupported

  /** `"http".equalsIgnoreCase(p) || "ftp".equalsIgnoreCase(p)`, else `"https".equalsIgnoreCase(p)`, else none. */
  function SchemeOf(protocol: string): (s: Scheme)
    ensures s == Plain <==> Lower(protocol) == "http" || Lower(protocol) == "ftp"
    ensures s == Secure <==> Lower(protocol) == "https"
    ensures s == Unsupported <==> Lower(protocol) != "http" && Lower(protocol) != "ftp" && Lower(protocol) != "https"
  {
    EqualsIgnoreCaseIsLowerEqual("http", protocol);
    EqualsIgnoreCaseIsLowerEqual("ftp", protocol);
    EqualsIgnoreCaseIsLowerEqual("https", protocol);
    assert Lower("http") == "http" && Lower("ftp") == "ftp" && Lower("https") == "https";
    if EqualsIgnoreCase("http", protocol) || EqualsIgnoreCase("ftp", protocol) then Plain
    else if EqualsIgnoreCase("https", protocol) then Secure
    else Unsupported
  }

  /** The dispatch does not depend on the case of the protocol. */
  lemma SchemeIgnoresCase(p: string, q: string)
    requires EqualsIgnoreCase(p, q)
    ensures SchemeOf(p) == SchemeOf(q)
  {
    EqualsIgnoreCaseIsLowerEqual(p, q);
  }

  /** An X.509 certificate, opaque to the library. */
  type Certificate = seq<Byte>

  /** `DefaultTrustManager`, the only trust manager the library installs. */
  datatype TrustManager = DefaultTrustManager

  /** The anonymous `HostnameVerifier` of `getSecureConnection`. */
  datatype HostnameVerifier = AcceptAllHostnames

  /** `checkClientTrusted`: None means it returns without throwing `CertificateException`. */
  function CheckClientTrusted(tm: TrustManager, chain: seq<Certificate>, authType: string): (thrown: Option<string>)
    ensures thrown.None?
  {
    None
  }

  /** `checkServerTrusted`: likewise returns without throwing, whatever the chain. */
  function CheckServerTrusted(tm: TrustManager, chain: seq<Certificate>, authType: string): (thrown: Option<string>)
    ensures thrown.None?
  {
    None
  }

  /** `getAcceptedIssuers()` returns null. */
  function GetAcceptedIssuers(tm: TrustManager): (issuers: Option<seq<Certificate>>)
    ensures issuers.None?
  {
    None
  }

  /** `verify(hostname, session)` of the anonymous verifier: every host name is accepted. */
  function Verify(hv: HostnameVerifier, hostname: string, session: seq<Byte>): (accepted: bool)
    ensures accepted
  {
    true
  }

  /** The TLS part of a secure connection: a "TLS" context, no key managers, the trust manager, the verifier. */
  datatype TlsSettings = TlsSettings(protocol: string, keyManagers: nat, trustManagers: seq<TrustManager>, verifier: HostnameVerifier)

  /** The state of a `URLConnection` the connector hands back, before `connect()`. */
  datatype UrlConnection = UrlConnection(
    url: Url,
    proxy: Proxy,
    requestMethod: string,
    requestProperties: seq<(string, string)>,
    connectTimeout: Option<int>,
    tls: Option<TlsSettings>)

  /** The trust policy of a secure connection accepts every certificate chain and every host name. */
  lemma SecureConnectionTrustsEveryone(c: UrlConnection, chain: seq<Certificate>, authType: string, hostname: string, session: seq<Byte>)
    requires c.tls.Some?
    ensures forall tm :: tm in c.tls.value.trustManagers ==>
      CheckServerTrusted(tm, chain, authType).None? && CheckClientTrusted(tm, chain, authType).None?
    ensures Verify(c.tls.value.verifier, hostname, session)
    ensures forall tm :: tm in c.tls.value.trustManagers ==> GetAcceptedIssuers(tm).None?
  {
  }

  /** The keys named in a list of request properties. */
  function KeysOf(ps: seq<(string, string)>): set<string>
  {
    if ps == [] then {} else KeysOf(ps[..|ps| - 1]) + {ps[|ps| - 1].0}
  }

  lemma {:induction false} KeysOfNamesEveryPair(ps: seq<(string, string)>, i: nat)
    requires i < |ps|
    ensures ps[i].0 in KeysOf(ps)
  {
    if i < |ps| - 1 {
      KeysOfNamesEveryPair(ps[..|ps| - 1], i);
    }
  }

  /** `ps` holds one `(key, value)` pair per key of `m`, with that key's value, in some order. */
  ghost predicate ListsMap(ps: seq<(string, string)>, m: map<string, string>)
  {
    && KeysOf(ps) == m.Keys
    && (forall i :: 0 <= i < |ps| ==> ps[i].0 in m && m[ps[i].0] == ps[i].1)
    && (forall i, j :: 0 <= i < j < |ps| ==> ps[i].0 != ps[j].0)
    && |ps| == |m|
  }

  /** Why reading a response fails. */
  datatype IOError = IOException

  /** The runtime exception of casting a non-HTTP connection to `HttpURLConnection`. */
  datatype CastFault = ClassCastException

  class HttpConnector {
    const BUFFER_SIZE: int := 2048
    const DEFAULT_STREAM_BUFFER_SIZE: int := 3072
    const DEFAULT_CONNECT_TIMEOUT: int := 13000

    var connectionTimeout: int
    var headers: map<string, string>
    var requestMethod: string

    /** A fresh connector: timeout 13000, no headers, method "GET". */
    constructor ()
      ensures connectionTimeout == DEFAULT_CONNECT_TIMEOUT && headers == map[] && requestMethod == "GET"
    {
      connectionTimeout := DEFAULT_CONNECT_TIMEOUT;
      headers := map[];
      requestMethod := "GET";
    }

    /** What `url.openConnection(proxy)` followed by this connector's settings produces. */
    ghost predicate Configured(c: UrlConnection, url: Url, proxy: Proxy, base: seq<(string, string)>)
      reads this
    {
      && c.url == url
      && c.proxy == proxy
      && c.requestMethod == requestMethod
      && |c.requestProperties| == |base| + |headers|
      && c.requestProperties[..|base|] == base
      && ListsMap(c.requestProperties[|base|..], headers)
    }

    /**
     * `getConnection(url)`: the plain and secure paths with a null proxy, so a
     * direct connection; null for any other scheme.
     */
    method GetConnection(url: Url) returns (c: Result<Option<UrlConnection>, CastFault>)
      ensures c.Failure? <==> Lower(url.protocol) == "ftp"
      ensures c == Success(None) <==> SchemeOf(url.protocol) == Unsupported
      ensures c.Success? && c.value.Some? ==> Configured(c.value.value, url, NoProxy, [])
      ensures c.Success? && c.value.Some? ==> (c.value.value.tls.Some? <==> SchemeOf(url.protocol) == Secure)
      ensures c.Success? && c.value.Some? && SchemeOf(url.protocol) == Plain ==> c.value.value.connectTimeout.None?
      ensures c.Success? && c.value.Some? && SchemeOf(url.protocol) == Secure ==> c.value.value.connectTimeout == Some(DEFAULT_CONNECT_TIMEOUT)
    {
      var scheme := SchemeOf(url.protocol);
      if scheme == Plain {
        c := GetConnectionVia(url, None);
      } else if scheme == Secure {
        var s := GetSecureConnection(url, None);
        c := Success(Some(s.value));
      } else {
        c := Success(None);
      }
    }

    /**
     * `getConnection(url, proxy)`: http and ftp (any case) take the plain
     * path, which opens a connection through the proxy, or directly when it
     * is null, casts it to `HttpURLConnection` and applies the method and the
     * headers; https goes to `getSecureConnection`; anything else gives null.
     * An ftp URL opens an `FtpURLConnection`, so the cast throws
     * `ClassCastException` before anything is set. The configured connection
     * timeout is never applied.
     */
    method GetConnectionVia(url: Url, proxy: Option<Proxy>) returns (c: Result<Option<UrlConnection>, CastFault>)
      ensures c.Failure? <==> Lower(url.protocol) == "ftp"
      ensures c == Success(None) <==> SchemeOf(url.protocol) == Unsupported
      ensures c.Success? && c.value.Some? ==> Configured(c.value.value, url, OrNoProxy(proxy), [])
      ensures c.Success? && c.value.Some? ==> (c.value.value.tls.Some? <==> SchemeOf(url.protocol) == Secure)
      ensures c.Success? && c.value.Some? && SchemeOf(url.protocol) == Plain ==> c.value.value.connectTimeout.None?
      ensures c.Success? && c.value.Some? && SchemeOf(url.protocol) == Secure ==> c.value.value.connectTimeout == Some(DEFAULT_CONNECT_TIMEOUT)
    {
      var scheme := SchemeOf(url.protocol);
      if scheme == Plain {
        if Lower(url.protocol) == "ftp" {
          return Failure(ClassCastException);
        }
        var conn := UrlConnection(url, OrNoProxy(proxy), "GET", [], None, None);
        conn := conn.(requestMethod := requestMethod);
        conn := SetHeaders(conn);
        c := Success(Some(conn));
      } else if scheme == Secure {
        var s := GetSecureConnection(url, proxy);
        c := Success(Some(s.value));
      } else {
        c := Success(None);
      }
    }

    /**
     * `getSecureConnection(url, proxy)`: the method and headers as on the plain
     * path, a TLS context whose only trust manager is `DefaultTrustManager`, the
     * accept-all host name verifier, and always the default connect timeout.
     * Only an https URL opens an `HttpsURLConnection`; for any other URL the
     * cast throws `ClassCastException` before anything is set.
     */
    method GetSecureConnection(url: Url, proxy: Option<Proxy>) returns (c: Result<UrlConnection, CastFault>)
      ensures c.Failure? <==> Lower(url.protocol) != "https"
      ensures c.Success? ==> Configured(c.value, url, OrNoProxy(proxy), [])
      ensures c.Success? ==> c.value.tls == Some(TlsSettings("TLS", 0, [DefaultTrustManager], AcceptAllHostnames))
      ensures c.Success? ==> c.value.connectTimeout == Some(DEFAULT_CONNECT_TIMEOUT)
    {
      if Lower(url.protocol) != "https" {
        return Failure(ClassCastException);
      }
      var context := TlsSettings("TLS", 0, [DefaultTrustManager], AcceptAllHostnames);
      var conn := UrlConnection(url, OrNoProxy(proxy), "GET", [], None, None);
      conn := conn.(requestMethod := requestMethod);
      conn := SetHeaders(conn);
      conn := conn.(tls := Some(context));
      conn := conn.(connectTimeout := Some(DEFAULT_CONNECT_TIMEOUT));
      c := Success(conn);
    }

    /**
     * `setHeaders(uc)`: one `addRequestProperty(key, headers.get(key))` per key
     * of the header map, in the map's (unspecified) iteration order.
     */
    method SetHeaders(uc: UrlConnection) returns (r: UrlConnection)
      ensures r == uc.(requestProperties := r.requestProperties)
      ensures Configured(r.(requestMethod := requestMethod), uc.url, uc.proxy, uc.requestProperties)
    {
      var remaining := headers.Keys;
      var added: seq<(string, string)> := [];
      while remaining != {}
        invariant remaining <= headers.Keys
        invariant KeysOf(added) == headers.Keys - remaining
        invariant forall i :: 0 <= i < |added| ==> added[i].0 in headers && headers[added[i].0] == added[i].1
        invariant forall i, j :: 0 <= i < j < |added| ==> added[i].0 != added[j].0
        invariant |added| + |remaining| == |headers|
        decreases remaining
      {
        var key :| key in remaining;
        forall i | 0 <= i < |added| ensures added[i].0 != key {
          KeysOfNamesEveryPair(added, i);
        }
        ghost var before := added;
        added := added + [(key, headers[key])];
        assert added[..|added| - 1] == before;
        remaining := remaining - {key};
      }
      r := uc.(requestProperties := uc.requestProperties + added);
      assert r.requestProperties[..|uc.requestProperties|] == uc.requestProperties;
      assert r.requestProperties[|uc.requestProperties|..] == added;
    }

    method GetConnectionTimeout() returns (t: int)
      ensures t == connectionTimeout
    {
      t := connectionTimeout;
    }

    /** Changes only what `getConnectionTimeout` returns: no connection ever uses it. */
    method SetConnectionTimeout(connectionTimeout: int)
      modifies this
      ensures this.connectionTimeout == connectionTimeout
      ensures headers == old(headers) && requestMethod == old(requestMethod)
    {
      this.connectionTimeout := connectionTimeout;
    }

    /** `addHeader(key, value)`: `HashMap.put`, so a later value for the same key overwrites an earlier one. */
    method AddHeader(key: string, value: string)
      modifies this
      ensures headers == old(headers)[key := value]
      ensures connectionTimeout == old(connectionTimeout) && requestMethod == old(requestMethod)
    {
      headers := headers[key := value];
    }

    /** `getHeaders()`: the header map, the one `addHeader` writes and `setHeaders` reads, as a value. */
    method GetHeaders() returns (h: map<string, string>)
      ensures h == headers
    {
      h := headers;
    }

    method GetRequestMethod() returns (m: string)
      ensures m == requestMethod
    {
      m := requestMethod;
    }

    method SetRequestMethod(requestMethod: string)
      modifies this
      ensures this.requestMethod == requestMethod
      ensures headers == old(headers) && connectionTimeout == old(connectionTimeout)
    {
      this.requestMethod := requestMethod;
    }

    /**
     * `doInput(conn)`: everything the reader returns until -1, appended chunk
     * by chunk; `getInputStream` failing (None), a failing read, or a failing
     * `close()` make it throw instead.
     */
    method DoInput(input: Option<Stream<char>>) returns (r: Result<string, IOError>)
      requires input.Some? ==> ChunksFit(input.value.chunks, BUFFER_SIZE)
      ensures input.None? ==> r == Failure(IOException)
      ensures input.Some? && input.value.end.ReadFailure? ==> r == Failure(IOException)
      ensures input.Some? && input.value.end == EndOfStream(true) ==> r == Failure(IOException)
      ensures input.Some? && input.value.end == EndOfStream(false) ==> r == Success(Flatten(input.value.chunks))
    {
      if input.None? {
        return Failure(IOException);
      }
      var chunks := input.value.chunks;
      var buff: string := [];
      var i := 0;
      while i < |chunks|
        invariant 0 <= i <= |chunks|
        invariant buff == Flatten(chunks[..i])
      {
        FlattenSnoc(chunks, i);
        buff := buff + chunks[i];
        i := i + 1;
      }
      assert chunks[..i] == chunks;
      match input.value.end
      case ReadFailure =>
        r := Failure(IOException);
      case EndOfStream(closeFails) =>
        r := if closeFails then Failure(IOException) else Success(buff);
    }
  }

  /** Adding a header twice keeps only the second value; other keys are untouched. */
  method AddHeaderOverwrites(hc: HttpConnector, key: string, v1: string, v2: string)
    modifies hc
    ensures hc.headers == old(hc.headers)[key := v2]
    ensures forall k :: k != key ==> (k in hc.headers <==> k in old(hc.headers))
  {
    hc.AddHeader(key, v1);
    hc.AddHeader(key, v2);
  }
}
