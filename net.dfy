/** The parts of `java.net` the library hands around as values. */
module Net {
  import opened Wrappers

  /** A `java.net.URL` as the library looks at it: `getProtocol()` and `toString()`. */
  datatype Url = Url(protocol: string, text: string)

  /** A `java.net.Proxy`; `NoProxy` is `Proxy.NO_PROXY`, a direct connection. */
  datatype Proxy = NoProxy | HttpProxy(address: string) | SocksProxy(address: string)

  /** `proxy == null ? Proxy.NO_PROXY : proxy`. */
  function OrNoProxy(proxy: Option<Proxy>): (p: Proxy)
    ensures proxy.None? ==> p == NoProxy
    ensures proxy.Some? ==> p == proxy.value
  {
    if proxy.None? then NoProxy else proxy.value
  }
}
