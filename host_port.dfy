/**
 * Guava's HostAndPort, as far as the option sets use it.  Parsing a
 * "host[:port]" text is not modelled: it is a parameter of type HostParser.
 */
module HostPort {
  import opened JavaLang

  datatype HostAndPort = HostAndPort(host: string, port: Option<int>)

  /** The outcome of HostAndPort.fromString: a value, or an IllegalArgumentException. */
  datatype HostParse = Parsed(hp: HostAndPort) | Rejected(reason: string)

  type HostParser = string -> HostParse

  predicate IsValidPort(port: int)
  {
    0 <= port <= 65535
  }

  /**
   * HostAndPort.fromParts(host, port): the port must be in range and the host
   * text must not carry a port of its own.
   */
  function FromParts(parse: HostParser, host: string, port: int): (r: HostParse)
    ensures r.Parsed? <==> IsValidPort(port) && parse(host).Parsed? && parse(host).hp.port.None?
    ensures r.Parsed? ==> r.hp == HostAndPort(parse(host).hp.host, Some(port))
  {
    if !IsValidPort(port) then Rejected("Port out of range: " + ShowInt(port))
    else
      match parse(host)
      case Rejected(reason) => Rejected(reason)
      case Parsed(hp) =>
        if hp.port.Some? then Rejected("Host has a port: " + host)
        else Parsed(HostAndPort(hp.host, Some(port)))
  }
}
