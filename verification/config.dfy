/**
 * Server configuration: the command-line options with their defaults, the
 * verbosity chosen by the number of `-v` flags, the timeout parsed as an
 * unsigned 64-bit number of seconds, and the "address:port" strings the two
 * listeners bind to.
 */
module Config {
  import opened Wrappers

  /** The logging levels the server chooses between, least verbose first. */
  datatype Level = Info | Debug | Trace

  function Rank(l: Level): nat
  {
    match l
    case Info => 0
    case Debug => 1
    case Trace => 2
  }

  /** Ports stay strings, exactly as given on the command line. */
  datatype Config = Config(timeout: Option<nat>, addr: string, tcpPort: string, httpPort: string, verbosity: Level)

  const U64Limit: nat := 0x1_0000_0000_0000_0000

  /** The configuration used when no arguments are given. */
  function Default(): Config
  {
    Config(None, "0.0.0.0", "4000", "4080", Info)
  }

  /** Zero `-v` flags log at Info, one at Debug, two or more at Trace. */
  function VerbosityLevel(occurrences: nat): (l: Level)
    ensures Rank(l) == if occurrences < 2 then occurrences else 2
  {
    match occurrences
    case 0 => Info
    case 1 => Debug
    case _ => Trace
  }

  /** More flags never make the server quieter. */
  lemma VerbosityMonotone(m: nat, n: nat)
    requires m <= n
    ensures Rank(VerbosityLevel(m)) <= Rank(VerbosityLevel(n))
  {
  }

  // ---------------------------------------------------------------------
  // The timeout: an unsigned 64-bit decimal, anything else meaning "none"
  // ---------------------------------------------------------------------

  predicate IsDigit(c: char)
  {
    '0' <= c <= '9'
  }

  predicate AllDigits(d: string)
  {
    forall i :: 0 <= i < |d| ==> IsDigit(d[i])
  }

  /** The value of a string of decimal digits, most significant first. */
  function DigitsValue(d: string): nat
    requires AllDigits(d)
  {
    if d == [] then 0 else DigitsValue(d[..|d| - 1]) * 10 + (d[|d| - 1] as int - '0' as int)
  }

  /**
   * Parsing an unsigned 64-bit integer: an optional `+`, then at least one
   * decimal digit, and a value that fits in 64 bits; anything else (such as
   * the default "forever") fails.
   */
  function ParseU64(s: string): (r: Option<nat>)
    ensures r.Some? ==> r.value < U64Limit
    ensures r.Some? ==> s != [] && (IsDigit(s[0]) || s[0] == '+')
  {
    var d := if s != [] && s[0] == '+' then s[1..] else s;
    if d != [] && AllDigits(d) && DigitsValue(d) < U64Limit then Some(DigitsValue(d)) else None
  }

  /** The decimal rendering of a number, without sign or leading zeros. */
  function Show(n: nat): (s: string)
    ensures s != [] && AllDigits(s)
  {
    var c := ('0' as int + n % 10) as char;
    if n < 10 then [c] else Show(n / 10) + [c]
  }

  lemma {:induction false} ShowValue(n: nat)
    ensures DigitsValue(Show(n)) == n
  {
    var s := Show(n);
    if n >= 10 {
      ShowValue(n / 10);
      assert s[..|s| - 1] == Show(n / 10);
    }
  }

  /** Every 64-bit timeout written in decimal parses back to itself. */
  lemma ParseShow(n: nat)
    requires n < U64Limit
    ensures ParseU64(Show(n)) == Some(n)
  {
    ShowValue(n);
  }

  /** The option's default text means "no timeout". */
  lemma ForeverIsNoTimeout()
    ensures ParseU64("forever") == None
  {
  }

  /**
   * The configuration built from the option values clap hands over: the
   * interface address, the two ports, the timeout text and the number of
   * `-v` flags.
   */
  function FromArgs(timeout: string, addr: string, tcpPort: string, httpPort: string, occurrences: nat): (c: Config)
    ensures c.addr == addr && c.tcpPort == tcpPort && c.httpPort == httpPort
    ensures c.timeout == ParseU64(timeout)
    ensures c.timeout.Some? ==> c.timeout.value < U64Limit
    ensures c.verbosity == VerbosityLevel(occurrences)
  {
    Config(ParseU64(timeout), addr, tcpPort, httpPort, VerbosityLevel(occurrences))
  }

  /** With every option left at its default, the arguments give the default configuration. */
  lemma DefaultArgs()
    ensures FromArgs("forever", "0.0.0.0", "4000", "4080", 0) == Default()
  {
    ForeverIsNoTimeout();
  }

  // ---------------------------------------------------------------------
  // Listener addresses
  // ---------------------------------------------------------------------

  function TcpAddr(c: Config): string
  {
    c.addr + ":" + c.tcpPort
  }

  function HttpAddr(c: Config): string
  {
    c.addr + ":" + c.httpPort
  }

  /** Splitting "host:port" at its last colon, as a socket address is read back. */
  function SplitAtLastColon(s: string): Option<(string, string)>
  {
    if s == [] then None
    else if s[|s| - 1] == ':' then Some((s[..|s| - 1], []))
    else match SplitAtLastColon(s[..|s| - 1])
      case None => None
      case Some(hp) => Some((hp.0, hp.1 + [s[|s| - 1]]))
  }

  lemma {:induction false} SplitJoin(host: string, port: string)
    requires ':' !in port
    ensures SplitAtLastColon(host + ":" + port) == Some((host, port))
  {
    var s := host + ":" + port;
    if port == [] {
      assert s[..|s| - 1] == host;
    } else {
      var init := port[..|port| - 1];
      assert s[..|s| - 1] == host + ":" + init;
      assert s[|s| - 1] == port[|port| - 1];
      SplitJoin(host, init);
      assert init + [port[|port| - 1]] == port;
    }
  }

  /** The TCP listener binds to the configured address and TCP port, whatever the address contains. */
  lemma TcpAddrParts(c: Config)
    requires ':' !in c.tcpPort
    ensures SplitAtLastColon(TcpAddr(c)) == Some((c.addr, c.tcpPort))
  {
    SplitJoin(c.addr, c.tcpPort);
  }

  /** The HTTP listener binds to the configured address and HTTP port. */
  lemma HttpAddrParts(c: Config)
    requires ':' !in c.httpPort
    ensures SplitAtLastColon(HttpAddr(c)) == Some((c.addr, c.httpPort))
  {
    SplitJoin(c.addr, c.httpPort);
  }

  /** The two listeners' addresses coincide exactly when the two ports do. */
  lemma ListenersDistinct(c: Config)
    ensures TcpAddr(c) == HttpAddr(c) <==> c.tcpPort == c.httpPort
  {
    var prefix := c.addr + ":";
    if TcpAddr(c) == HttpAddr(c) {
      assert c.tcpPort == TcpAddr(c)[|prefix|..];
      assert c.httpPort == HttpAddr(c)[|prefix|..];
    }
  }

  /** By default the two listeners are "0.0.0.0:4000" and "0.0.0.0:4080". */
  lemma DefaultAddrs()
    ensures TcpAddr(Default()) == "0.0.0.0:4000" && HttpAddr(Default()) == "0.0.0.0:4080"
    ensures TcpAddr(Default()) != HttpAddr(Default())
  {
    ListenersDistinct(Default());
  }
}
