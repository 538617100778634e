/**
 * `Connection._parse_connection_url` of the Cassandra storage backend: the
 * network location of a database URL (the `host[:port]` part that
 * `urlsplit` extracts) becomes the connection options `host` and `port`.
 */
module CassandraUrl {
  import opened Base
  import opened Strings

  /** Port used when the location names none, an empty one, or port 0. */
  const DEFAULT_PORT: int := 9160

  /** The options dictionary: exactly the two keys `host` and `port`. */
  datatype ConnectionOptions = ConnectionOptions(host: string, port: int)

  datatype UrlError =
    | UnpackMismatch   // `opts['host'], port = netloc.split(':')` with three or more parts
    | InvalidPort(text: string)  // `int(port)` raised ValueError

  /** The local `port` before the final conversion: a piece of the location
      text, or the integer default when the location has no colon. */
  datatype PortValue = PortText(text: string) | PortNumber(n: int)

  /** `port and int(port) or 9160` */
  function ConvertPort(port: PortValue): (r: Result<int, UrlError>)
    ensures r.Success? ==> r.value != 0
  {
    match port
    case PortNumber(n) => if n == 0 then Success(DEFAULT_PORT) else Success(n)
    case PortText(t) =>
      if t == "" then Success(DEFAULT_PORT)
      else match PyInt(t)
        case None => Failure(InvalidPort(t))
        case Some(n) => if n == 0 then Success(DEFAULT_PORT) else Success(n)
  }

  function ParseConnectionUrl(netloc: string): (r: Result<ConnectionOptions, UrlError>)
    ensures r.Success? ==> r.value.port != 0 && ':' !in r.value.host
  {
    if ':' in netloc then
      var parts := Split(netloc, ':');
      if |parts| != 2 then Failure(UnpackMismatch)
      else
        match ConvertPort(PortText(parts[1]))
        case Success(port) => Success(ConnectionOptions(parts[0], port))
        case Failure(e) => Failure(e)
    else
      match ConvertPort(PortNumber(DEFAULT_PORT))
      case Success(port) => Success(ConnectionOptions(netloc, port))
      case Failure(e) => Failure(e)
  }

  /** A location without a colon is all host, on the default port. */
  lemma ParseWithoutPort(netloc: string)
    requires ':' !in netloc
    ensures ParseConnectionUrl(netloc) == Success(ConnectionOptions(netloc, DEFAULT_PORT))
  {
  }

  /** With exactly one colon the host is the text before it and the port is
      the integer after it; an empty port or port 0 falls back to 9160, and
      text that is not an integer is an error. */
  lemma {:induction false} ParseWithPort(host: string, port: string)
    requires ':' !in host && ':' !in port
    ensures var r := ParseConnectionUrl(host + ":" + port);
      && (r.Success? <==> (port == "" || PyInt(port).Some?))
      && (r.Success? ==> r.value.host == host)
      && (port == "" ==> r == Success(ConnectionOptions(host, DEFAULT_PORT)))
      && (PyInt(port) == Some(0) ==> r == Success(ConnectionOptions(host, DEFAULT_PORT)))
      && (forall n :: PyInt(port) == Some(n) && n != 0 ==> r == Success(ConnectionOptions(host, n)))
      && (port != "" && PyInt(port).None? ==> r == Failure(InvalidPort(port)))
  {
    SplitOnce(host, port, ':');
    assert host + ":" + port == host + [':'] + port;
  }

  /** More than one colon (an IPv6 literal, say) always fails at the unpack. */
  lemma {:induction false} ParseManyColons(netloc: string)
    requires Count(netloc, ':') >= 2
    ensures ParseConnectionUrl(netloc) == Failure(UnpackMismatch)
  {
    SplitCount(netloc, ':');
  }

  /** `host:port` rendered from a colon-free host and a positive port parses
      back to the same pair. */
  lemma {:induction false} ParseRoundTrip(host: string, port: nat)
    requires ':' !in host && port > 0
    ensures ParseConnectionUrl(host + ":" + Decimal(port)) == Success(ConnectionOptions(host, port))
  {
    var d := Decimal(port);
    assert ':' !in d;
    PyIntDecimal(port);
    ParseWithPort(host, d);
  }

  /** Python 2's `int` accepts whitespace after the sign, so a location such
      as `host:- 12` parses, and to a negative port: nothing checks the range. */
  lemma SignedPort(host: string, sign: char, gap: string, digits: string)
    requires ':' !in host && (sign == '-' || sign == '+')
    requires AllSpace(gap) && digits != [] && AllDigits(digits) && DigitsValue(digits) != 0
    ensures ParseConnectionUrl(host + ":" + ([sign] + gap + digits)) ==
      Success(ConnectionOptions(host, if sign == '-' then -(DigitsValue(digits) as int) else DigitsValue(digits)))
  {
    var port := [sign] + gap + digits;
    assert ':' !in port by {
      assert forall k :: 0 <= k < |gap| ==> IsSpace(gap[k]);
      assert forall k :: 0 <= k < |digits| ==> IsDigit(digits[k]);
      assert port == [sign] + (gap + digits);
    }
    PyIntSigned(sign, gap, digits);
    ParseWithPort(host, port);
  }
}
