/**
 One DNS lookup: choose the transport, dial the server, write the query,
 read one reply and pick the answer. The network is not modelled; a
 `Network` record says how each of the three I/O steps would turn out, and
 the steps the lookup actually performs are returned as a trace of events.
 */
module Exchange {
  import opened Dns

  /** The channel to the DNS server: direct UDP, or UDP relayed through a SOCKS5 proxy. */
  datatype Transport = Direct(server: string) | Socks5Relay(proxy: string, server: string)

  /** An I/O failure, carried back to the caller unchanged. */
  datatype IoError = IoError(reason: string)

  datatype Step = Done | Failed(err: IoError)

  /** The read either fails, or returns bytes that decode to a DNS message or do not. */
  datatype Reply = ReadFailed(err: IoError) | Received(decoded: Option<Message>)

  /** How dialling, writing and reading would turn out. */
  datatype Network = Network(dial: Step, write: Step, read: Reply)

  /** A step the lookup performed. */
  datatype Event = Dial(via: Transport) | Write(query: Message) | Read

  /** The lookup's three results: the name, the address text and the error, if any. */
  datatype QueryResult = QueryResult(name: string, addr: string, err: Option<IoError>)

  /** The relay is used exactly when a proxy is configured. */
  function SelectTransport(server: string, proxy: string): (t: Transport)
    ensures t.Socks5Relay? <==> proxy != ""
    ensures t.server == server
    ensures t.Socks5Relay? ==> t.proxy == proxy
  {
    if proxy != "" then Socks5Relay(proxy, server) else Direct(server)
  }

  /**
   Looks up `domain` against `server`, through `proxy` when it is not empty.
   A failing step ends the lookup with the domain, an empty address and that
   step's error, and nothing after it happens. A read that succeeds is never
   an error, whatever the reply holds.
   */
  method Query(domain: string, server: string, proxy: string, net: Network)
    returns (res: QueryResult, trace: seq<Event>)
    ensures trace ==
      [Dial(SelectTransport(server, proxy))]
      + (if net.dial.Done? then [Write(BuildQuery(domain))] else [])
      + (if net.dial.Done? && net.write.Done? then [Read] else [])
    // The next four follow from the trace above; they are spelled out for the reader.
    ensures |trace| >= 1 && trace[0] == Dial(SelectTransport(server, proxy))
    ensures Write(BuildQuery(domain)) in trace <==> net.dial.Done?
    ensures forall q :: Write(q) in trace ==> q == BuildQuery(domain)
    ensures Read in trace <==> net.dial.Done? && net.write.Done?
    ensures net.dial.Failed? ==> res == QueryResult(domain, "", Some(net.dial.err))
    ensures net.dial.Done? && net.write.Failed? ==> res == QueryResult(domain, "", Some(net.write.err))
    ensures net.dial.Done? && net.write.Done? && net.read.ReadFailed? ==>
      res == QueryResult(domain, "", Some(net.read.err))
    ensures res.err.None? <==> net.dial.Done? && net.write.Done? && net.read.Received?
    ensures res.err.None? ==>
      (res.name, res.addr) == SelectAnswer(domain, net.read.decoded)
  {
    var via := SelectTransport(server, proxy);
    trace := [Dial(via)];
    if net.dial.Failed? {
      return QueryResult(domain, "", Some(net.dial.err)), trace;
    }
    var packet := BuildQuery(domain);
    trace := trace + [Write(packet)];
    if net.write.Failed? {
      return QueryResult(domain, "", Some(net.write.err)), trace;
    }
    trace := trace + [Read];
    if net.read.ReadFailed? {
      return QueryResult(domain, "", Some(net.read.err)), trace;
    }
    var (name, addr) := SelectAnswer(domain, net.read.decoded);
    res := QueryResult(name, addr, None);
  }
}
