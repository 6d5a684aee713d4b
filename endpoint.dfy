/**
 Endpoint defaulting: a host given without a port gets the well-known port
 of its role, 53 for the DNS server and 7890 for the SOCKS5 proxy. An
 endpoint "has a port" as soon as it holds a ':' anywhere.
 */
module Endpoint {

  /** Default port of the DNS server. */
  const DnsPort: string := "53"
  /** Default port of the SOCKS5 proxy. */
  const ProxyPort: string := "7890"
  /** Value of the `-server` flag when it is not given. */
  const DefaultServer: string := "8.8.8.8:53"

  predicate HasPort(addr: string) {
    ':' in addr
  }

  /**
   The address as given when it already has a port, otherwise the address
   followed by ":" and the default port.
   */
  function Normalize(addr: string, port: string): (r: string)
    ensures HasPort(r)
    ensures addr <= r
    ensures r == addr <==> HasPort(addr)
    ensures r != addr ==> r[|addr|..] == ":" + port
  {
    if HasPort(addr) then addr else addr + ":" + port
  }

  /**
   The proxy as fixed at startup: an empty proxy stays empty (no proxy, the
   query goes directly to the server), any other one is normalized.
   */
  function StartupProxy(proxy: string): (r: string)
    ensures r == "" <==> proxy == ""
    ensures r != "" ==> HasPort(r) && proxy <= r
    ensures proxy != "" ==> r == Normalize(proxy, ProxyPort)
  {
    if proxy != "" then Normalize(proxy, ProxyPort) else proxy
  }

  /** Normalizing twice is normalizing once, whatever port the second pass would add. */
  lemma NormalizeIdempotent(addr: string, port: string, port2: string)
    ensures Normalize(Normalize(addr, port), port2) == Normalize(addr, port)
  {
  }

  /** The defaults the tool applies to bare hosts, on sample hosts. */
  lemma DefaultingExamples()
    ensures Normalize("8.8.8.8", DnsPort) == "8.8.8.8:53"
    ensures Normalize("myproxy", ProxyPort) == "myproxy:7890"
    ensures Normalize("1.1.1.1:5353", DnsPort) == "1.1.1.1:5353"
    ensures Normalize(DefaultServer, DnsPort) == DefaultServer
  {
  }
}
