/**
 * The label resolver of docker/client.go: how the `proxy.*` labels and the
 * inspected IP addresses of one container become a ContainerInfo (or a skip,
 * or an error), and how a scan keeps the containers that resolve.
 *
 * The Docker API is not modelled: the container list and each inspect
 * result are inputs (Listing, Inspection).
 */
module Docker {
  import opened Wrappers
  import opened GoStrings

  datatype Protocol = TCP | UDP

  /** Protocol is meaningful only after parseContainer tags the mapping. */
  datatype PortMapping = PortMapping(proxyPort: int, containerPort: int, protocol: Protocol)

  datatype HTTPMapping = HTTPMapping(hostnames: seq<string>, containerPort: int, https: bool)

  datatype ContainerInfo = ContainerInfo(
    name: string,
    id: string,
    ip: string,
    mappings: seq<PortMapping>,
    http: Option<HTTPMapping>)

  const MIN_PORT := 1
  const MAX_PORT := 65535
  const DEFAULT_HTTP_PORT := 80
  const ID_LENGTH := 12

  const TCP_PORTS_LABEL := "proxy.tcp.ports"
  const UDP_PORTS_LABEL := "proxy.udp.ports"
  const HTTP_HOST_LABEL := "proxy.http.host"
  const HTTP_PORT_LABEL := "proxy.http.port"
  const HTTP_HTTPS_LABEL := "proxy.http.https"

  predicate InPortRange(p: int) {
    MIN_PORT <= p <= MAX_PORT
  }

  predicate ValidMapping(m: PortMapping) {
    InPortRange(m.proxyPort) && InPortRange(m.containerPort)
  }

  /** The error cases of parsePortMappings, in the order it checks them. */
  datatype PortError =
    | BadFormat(part: string)
    | BadProxyPort(text: string)
    | BadContainerPort(text: string)
    | BadPort(part: string)
    | ProxyPortOutOfRange(port: int)
    | ContainerPortOutOfRange(port: int)

  // ---------------------------------------------------------------------
  // parsePortMappings
  // ---------------------------------------------------------------------

  function CheckRange(proxyPort: int, containerPort: int): (r: Result<PortMapping, PortError>)
    ensures r.Ok? <==> InPortRange(proxyPort) && InPortRange(containerPort)
    ensures r.Ok? ==> r.value == PortMapping(proxyPort, containerPort, TCP)
    ensures !InPortRange(proxyPort) ==> r == Err(ProxyPortOutOfRange(proxyPort))
    ensures InPortRange(proxyPort) && !InPortRange(containerPort) ==> r == Err(ContainerPortOutOfRange(containerPort))
  {
    if proxyPort < MIN_PORT || proxyPort > MAX_PORT then Err(ProxyPortOutOfRange(proxyPort))
    else if containerPort < MIN_PORT || containerPort > MAX_PORT then Err(ContainerPortOutOfRange(containerPort))
    else Ok(PortMapping(proxyPort, containerPort, TCP))
  }

  /**
   * One trimmed, non-empty token: `port` or `proxy:container`. The
   * protocol is Go's zero value, TCP, until the caller tags it.
   */
  function ParseSpec(part: string): (r: Result<PortMapping, PortError>)
    ensures r.Ok? ==> ValidMapping(r.value) && r.value.protocol == TCP
  {
    if ':' in part then
      var splits := Split(part, ':');
      if |splits| != 2 then Err(BadFormat(part))
      else
        match Atoi(TrimSpace(splits[0]))
        case None => Err(BadProxyPort(splits[0]))
        case Some(p) =>
          match Atoi(TrimSpace(splits[1]))
          case None => Err(BadContainerPort(splits[1]))
          case Some(c) => CheckRange(p, c)
    else
      match Atoi(part)
      case None => Err(BadPort(part))
      case Some(p) => CheckRange(p, p)
  }

  /** The comma-separated pieces of a label, each trimmed (client.go:261, 265). */
  function Pieces(s: string): seq<string> {
    var parts := Split(s, ',');
    seq(|parts|, k requires 0 <= k < |parts| => TrimSpace(parts[k]))
  }

  /**
   * Trimmed pieces parsed left to right: blank pieces are skipped and the
   * first bad piece is the error.
   */
  function ParseTokens(toks: seq<string>): (r: Result<seq<PortMapping>, PortError>)
    ensures r.Ok? ==> |r.value| <= |toks|
    ensures r.Ok? ==> forall k :: 0 <= k < |r.value| ==> ValidMapping(r.value[k])
  {
    if |toks| == 0 then Ok([])
    else
      match ParseTokens(toks[..|toks| - 1])
      case Err(e) => Err(e)
      case Ok(ms) =>
        var part := toks[|toks| - 1];
        if part == [] then Ok(ms)
        else
          match ParseSpec(part)
          case Err(e) => Err(e)
          case Ok(m) => Ok(ms + [m])
  }

  /** What parsePortMappings returns for the label `s`. */
  function PortMappingsOf(s: string): Result<seq<PortMapping>, PortError> {
    ParseTokens(Pieces(s))
  }

  /** The non-blank pieces, in order. */
  function NonBlank(toks: seq<string>): (r: seq<string>)
    ensures |r| <= |toks|
    ensures forall k :: 0 <= k < |r| ==> r[k] != []
  {
    if |toks| == 0 then []
    else
      var part := toks[|toks| - 1];
      NonBlank(toks[..|toks| - 1]) + (if part == [] then [] else [part])
  }

  /** A bad non-blank piece after a clean prefix is the result of the whole parse. */
  lemma {:induction false} ParseTokensErrorAt(toks: seq<string>, i: nat, e: PortError)
    requires i < |toks| && toks[i] != []
    requires ParseTokens(toks[..i]).Ok? && ParseSpec(toks[i]) == Err(e)
    ensures ParseTokens(toks) == Err(e)
  {
    assert toks[..i + 1][..i] == toks[..i];
    PrefixError(toks, i + 1);
  }

  lemma {:induction false} PrefixError(toks: seq<string>, i: nat)
    requires i <= |toks|
    requires ParseTokens(toks[..i]).Err?
    ensures ParseTokens(toks) == ParseTokens(toks[..i])
    decreases |toks| - i
  {
    if i < |toks| {
      assert toks[..i + 1][..i] == toks[..i];
      PrefixError(toks, i + 1);
    } else {
      assert toks[..i] == toks;
    }
  }

  /**
   * The body of parsePortMappings' loop for one trimmed, non-empty piece
   * (client.go:270-309), checking in the source's order.
   */
  method ParsePiece(part: string) returns (r: Result<PortMapping, PortError>)
    ensures r == ParseSpec(part)
  {
    var proxyPort, containerPort;
    if ':' in part {
      var splits := Split(part, ':');
      if |splits| != 2 {
        return Err(BadFormat(part));
      }
      var p := Atoi(TrimSpace(splits[0]));
      if p.None? {
        return Err(BadProxyPort(splits[0]));
      }
      proxyPort := p.value;
      var c := Atoi(TrimSpace(splits[1]));
      if c.None? {
        return Err(BadContainerPort(splits[1]));
      }
      containerPort := c.value;
    } else {
      var p := Atoi(part);
      if p.None? {
        return Err(BadPort(part));
      }
      proxyPort := p.value;
      containerPort := proxyPort;
    }
    if proxyPort < MIN_PORT || proxyPort > MAX_PORT {
      return Err(ProxyPortOutOfRange(proxyPort));
    }
    if containerPort < MIN_PORT || containerPort > MAX_PORT {
      return Err(ContainerPortOutOfRange(containerPort));
    }
    return Ok(PortMapping(proxyPort, containerPort, TCP));
  }

  /** parsePortMappings (client.go:260-313): the mappings of a label, or its first bad piece. */
  method ParsePortMappings(s: string) returns (r: Result<seq<PortMapping>, PortError>)
    ensures r == PortMappingsOf(s)
  {
    var parts := Split(s, ',');
    ghost var toks := Pieces(s);
    var mappings: seq<PortMapping> := [];
    var i := 0;
    while i < |parts|
      invariant 0 <= i <= |parts| == |toks|
      invariant ParseTokens(toks[..i]) == Ok(mappings)
    {
      var part := TrimSpace(parts[i]);
      assert toks[i] == part;
      assert toks[..i + 1][..i] == toks[..i];
      if part == [] {
        i := i + 1;
        continue;
      }
      var m := ParsePiece(part);
      if m.Err? {
        r := Err(m.error);
        ParseTokensErrorAt(toks, i, m.error);
        return;
      }
      mappings := mappings + [m.value];
      i := i + 1;
    }
    assert toks[..i] == toks;
    r := Ok(mappings);
  }

  /** A label parses iff every non-blank piece parses. */
  lemma {:induction false} ParseTokensOkIff(toks: seq<string>)
    ensures ParseTokens(toks).Ok? ==>
      forall k :: 0 <= k < |NonBlank(toks)| ==> ParseSpec(NonBlank(toks)[k]).Ok?
    ensures (forall k :: 0 <= k < |NonBlank(toks)| ==> ParseSpec(NonBlank(toks)[k]).Ok?) ==>
      ParseTokens(toks).Ok?
  {
    if |toks| > 0 {
      var init := toks[..|toks| - 1];
      ParseTokensOkIff(init);
      var part := toks[|toks| - 1];
      var nb, nb0 := NonBlank(toks), NonBlank(init);
      if part == [] {
        assert nb == nb0;
      } else {
        assert nb == nb0 + [part];
        assert forall k :: 0 <= k < |nb0| ==> nb[k] == nb0[k];
        if !ParseTokens(init).Ok? {
          var k :| 0 <= k < |nb0| && !ParseSpec(nb0[k]).Ok?;
          assert !ParseSpec(nb[k]).Ok?;
        } else if ParseSpec(part).Ok? {
          forall k | 0 <= k < |nb|
            ensures ParseSpec(nb[k]).Ok?
          {
            if k < |nb0| {
              assert nb[k] == nb0[k];
            }
          }
        } else {
          assert ParseSpec(part).Err?;
          assert ParseTokens(toks).Err?;
          assert !ParseSpec(nb[|nb0|]).Ok?;
        }
      }
    }
  }

  /** On success there is one mapping per non-blank piece, in order. */
  lemma {:induction false} ParseTokensValues(toks: seq<string>)
    requires ParseTokens(toks).Ok?
    ensures |ParseTokens(toks).value| == |NonBlank(toks)|
    ensures forall k :: 0 <= k < |NonBlank(toks)| ==>
      ParseSpec(NonBlank(toks)[k]) == Ok(ParseTokens(toks).value[k])
  {
    if |toks| > 0 {
      var init := toks[..|toks| - 1];
      ParseTokensValues(init);
      var part := toks[|toks| - 1];
      var nb, nb0 := NonBlank(toks), NonBlank(init);
      assert nb == nb0 + (if part == [] then [] else [part]);
      var ms, ms0 := ParseTokens(toks).value, ParseTokens(init).value;
      assert forall k :: 0 <= k < |nb0| ==> nb[k] == nb0[k] && ms[k] == ms0[k];
    }
  }

  /** On failure the error is that of the first piece that does not parse. */
  lemma {:induction false} ParseTokensFirstError(toks: seq<string>) returns (k: nat)
    requires ParseTokens(toks).Err?
    ensures k < |NonBlank(toks)|
    ensures ParseSpec(NonBlank(toks)[k]) == Err(ParseTokens(toks).error)
    ensures forall j :: 0 <= j < k ==> ParseSpec(NonBlank(toks)[j]).Ok?
  {
    var init := toks[..|toks| - 1];
    var part := toks[|toks| - 1];
    var nb, nb0 := NonBlank(toks), NonBlank(init);
    if ParseTokens(init).Err? {
      assert nb == nb0 + (if part == [] then [] else [part]);
      k := ParseTokensFirstError(init);
      assert forall j :: 0 <= j <= k ==> nb[j] == nb0[j];
    } else {
      ParseTokensOkIff(init);
      assert part != [];
      assert nb == nb0 + [part];
      k := |nb0|;
      assert nb[k] == part;
      assert ParseSpec(part) == Err(ParseTokens(toks).error);
      forall j | 0 <= j < k
        ensures ParseSpec(nb[j]).Ok?
      {
        assert nb[j] == nb0[j];
      }
    }
  }

  /** Sequencing two parses: the first error wins, otherwise the lists concatenate. */
  function Then(a: Result<seq<PortMapping>, PortError>, b: Result<seq<PortMapping>, PortError>): Result<seq<PortMapping>, PortError> {
    match a
    case Err(e) => Err(e)
    case Ok(x) =>
      match b
      case Err(e) => Err(e)
      case Ok(y) => Ok(x + y)
  }

  lemma {:induction false} ParseTokensConcat(p: seq<string>, q: seq<string>)
    ensures ParseTokens(p + q) == Then(ParseTokens(p), ParseTokens(q))
  {
    if q == [] {
      assert p + q == p;
      if ParseTokens(p).Ok? {
        assert ParseTokens(p).value + [] == ParseTokens(p).value;
      }
    } else {
      var q' := q[..|q| - 1];
      assert (p + q)[..|p + q| - 1] == p + q';
      var part := q[|q| - 1];
      assert (p + q)[|p + q| - 1] == part;
      ParseTokensConcat(p, q');
      if ParseTokens(p).Ok? && ParseTokens(q').Ok? && part != [] && ParseSpec(part).Ok? {
        assert ParseTokens(q) == Ok(ParseTokens(q').value + [ParseSpec(part).value]);
        assert ParseTokens(p).value + ParseTokens(q).value
          == ParseTokens(p).value + ParseTokens(q').value + [ParseSpec(part).value];
      }
    }
  }

  /** A label is the comma-join of its halves: each half is parsed on its own. */
  lemma PortMappingsJoin(a: string, b: string)
    ensures PortMappingsOf(a + "," + b) == Then(PortMappingsOf(a), PortMappingsOf(b))
  {
    PiecesJoin(a, b);
    ParseTokensConcat(Pieces(a), Pieces(b));
  }

  /** A label without a comma is a single piece. */
  lemma SinglePiece(s: string)
    requires ',' !in s
    ensures Pieces(s) == [TrimSpace(s)]
  {
    SplitNoSeparator(s, ',');
  }

  /** A label without a comma is parsed as its one trimmed piece. */
  lemma OnePiece(s: string)
    requires ',' !in s
    ensures TrimSpace(s) == [] ==> PortMappingsOf(s) == Ok([])
    ensures TrimSpace(s) != [] && ParseSpec(TrimSpace(s)).Ok? ==>
      PortMappingsOf(s) == Ok([ParseSpec(TrimSpace(s)).value])
    ensures TrimSpace(s) != [] && ParseSpec(TrimSpace(s)).Err? ==>
      PortMappingsOf(s) == Err(ParseSpec(TrimSpace(s)).error)
  {
    SplitNoSeparator(s, ',');
    var t := TrimSpace(s);
    var toks := Pieces(s);
    assert |toks| == 1 && toks[0] == t;
    assert toks[..0] == [];
    assert ParseTokens(toks) == (if t == [] then Ok([]) else
      match ParseSpec(t)
      case Err(e) => Err(e)
      case Ok(m) => Ok([] + [m]));
    if t != [] && ParseSpec(t).Ok? {
      assert [] + [ParseSpec(t).value] == [ParseSpec(t).value];
    }
  }

  /** A bare decimal port is checked as {n, n}; one past the int64 range is not a port at all. */
  lemma BareSpec(n: nat)
    ensures ParseSpec(Decimal(n)) ==
      if n <= MAX_INT64 then CheckRange(n, n) else Err(BadPort(Decimal(n)))
  {
    DecimalPlain(n);
    AtoiDecimal(n);
  }

  /**
   * `a:b`, with white space around the colon, is checked as {a, b}; a side
   * past the int64 range is reported as that side's syntax error.
   */
  lemma PairSpec(a: nat, w2: string, w3: string, b: nat)
    requires AllSpace(w2) && AllSpace(w3)
    ensures ParseSpec(Decimal(a) + w2 + ":" + w3 + Decimal(b)) ==
      if a > MAX_INT64 then Err(BadProxyPort(Decimal(a) + w2))
      else if b > MAX_INT64 then Err(BadContainerPort(w3 + Decimal(b)))
      else CheckRange(a, b)
  {
    DecimalPlain(a);
    DecimalPlain(b);
    AtoiDecimal(a);
    AtoiDecimal(b);
    PairOf(Decimal(a), w2, w3, Decimal(b));
  }

  /** Two trimmed, colon-free words `x` and `y` around a colon are read as numbers and range-checked. */
  lemma PairOf(x: string, w2: string, w3: string, y: string)
    requires AllSpace(w2) && AllSpace(w3)
    requires Trimmed(x) && Trimmed(y) && ':' !in x && ':' !in y
    ensures ParseSpec(x + w2 + ":" + w3 + y) ==
      match Atoi(x)
      case None => Err(BadProxyPort(x + w2))
      case Some(p) =>
        match Atoi(y)
        case None => Err(BadContainerPort(w3 + y))
        case Some(c) => CheckRange(p, c)
  {
    var left, right := x + w2, w3 + y;
    var t := x + w2 + ":" + w3 + y;
    SpaceNoSeparator(w2);
    SpaceNoSeparator(w3);
    assert ':' !in left && ':' !in right;
    PairSplit(left, right, t);
    TrimSpacePadded([], x, w2);
    TrimSpacePadded(w3, y, []);
    assert [] + x + w2 == left;
    assert w3 + y + [] == right;
    PairShape(t, left, right);
  }

  /** The colon branch of the piece parser, for a piece that splits into `left` and `right`. */
  lemma PairShape(part: string, left: string, right: string)
    requires ':' in part && Split(part, ':') == [left, right]
    ensures ParseSpec(part) ==
      match Atoi(TrimSpace(left))
      case None => Err(BadProxyPort(left))
      case Some(p) =>
        match Atoi(TrimSpace(right))
        case None => Err(BadContainerPort(right))
        case Some(c) => CheckRange(p, c)
  {
  }

  lemma PairSplit(left: string, right: string, t: string)
    requires ':' !in left && ':' !in right
    requires t == left + ":" + right
    ensures ':' in t && Split(t, ':') == [left, right]
  {
    assert t == left + [':'] + right;
    assert t[|left|] == ':';
    SplitAround(left, ':', right);
    SplitNoSeparator(left, ':');
    SplitNoSeparator(right, ':');
  }

  /** A decimal with white space around it trims to itself, reads back as `n`, and has no colon. */
  lemma PaddedDecimal(w1: string, n: nat, w2: string)
    requires AllSpace(w1) && AllSpace(w2)
    ensures TrimSpace(w1 + Decimal(n) + w2) == Decimal(n)
    ensures Atoi(Decimal(n)) == (if n <= MAX_INT64 then Some(n) else None)
    ensures ':' !in w1 + Decimal(n) + w2 && ',' !in w1 + Decimal(n) + w2
  {
    DecimalPlain(n);
    AtoiDecimal(n);
    TrimSpacePadded(w1, Decimal(n), w2);
  }

  /** A label that is only white space yields no mappings. */
  lemma BlankLabel(w: string)
    requires AllSpace(w)
    ensures PortMappingsOf(w) == Ok([])
  {
    SpaceNoSeparator(w);
    TrimSpaceEmptyIff(w);
    OnePiece(w);
  }

  /** A bare port `n`, with any white space around it, yields {n, n}. */
  lemma BareToken(w1: string, n: nat, w2: string)
    requires AllSpace(w1) && AllSpace(w2) && InPortRange(n)
    ensures PortMappingsOf(w1 + Decimal(n) + w2) == Ok([PortMapping(n, n, TCP)])
  {
    PaddedDecimal(w1, n, w2);
    BareSpec(n);
    OnePiece(w1 + Decimal(n) + w2);
  }

  /** `a:b`, with white space around the piece and around the colon, yields {a, b}. */
  lemma PairToken(w1: string, a: nat, w2: string, w3: string, b: nat, w4: string)
    requires AllSpace(w1) && AllSpace(w2) && AllSpace(w3) && AllSpace(w4)
    requires InPortRange(a) && InPortRange(b)
    ensures PortMappingsOf(w1 + Decimal(a) + w2 + ":" + w3 + Decimal(b) + w4)
      == Ok([PortMapping(a, b, TCP)])
  {
    var core := Decimal(a) + w2 + ":" + w3 + Decimal(b);
    var s := w1 + core + w4;
    assert s == w1 + Decimal(a) + w2 + ":" + w3 + Decimal(b) + w4;
    PairPiece(a, w2, w3, b);
    PairSpec(a, w2, w3, b);
    SpaceNoSeparator(w1);
    SpaceNoSeparator(w4);
    NoCommaIn(w1, core, w4, s);
    TrimSpacePadded(w1, core, w4);
    OnePiece(s);
  }

  /** The `a:b` piece itself is comma-free and trimmed. */
  lemma PairPiece(a: nat, w2: string, w3: string, b: nat)
    requires AllSpace(w2) && AllSpace(w3)
    ensures ',' !in Decimal(a) + w2 + ":" + w3 + Decimal(b)
    ensures Trimmed(Decimal(a) + w2 + ":" + w3 + Decimal(b))
  {
    DecimalPlain(a);
    DecimalPlain(b);
    PieceOf(Decimal(a), w2, w3, Decimal(b));
  }

  lemma PieceOf(x: string, w2: string, w3: string, y: string)
    requires AllSpace(w2) && AllSpace(w3)
    requires x != [] && y != [] && Trimmed(x) && Trimmed(y) && ',' !in x && ',' !in y
    ensures ',' !in x + w2 + ":" + w3 + y
    ensures Trimmed(x + w2 + ":" + w3 + y)
  {
    SpaceNoSeparator(w2);
    SpaceNoSeparator(w3);
    NoCommaIn(x + w2, ":", w3 + y, x + w2 + ":" + w3 + y);
    TrimmedBetween(x, w2 + ":" + w3, y);
    assert x + w2 + ":" + w3 + y == x + (w2 + ":" + w3) + y;
  }

  /** A string that starts and ends with non-space runs is trimmed. */
  lemma TrimmedBetween(x: string, y: string, z: string)
    requires Trimmed(x) && Trimmed(z) && x != [] && z != []
    ensures Trimmed(x + y + z)
  {
    var s := x + y + z;
    assert s[0] == x[0];
    assert s[|s| - 1] == z[|z| - 1];
  }

  /** White space holds no comma and no colon. */
  lemma SpaceNoSeparator(w: string)
    requires AllSpace(w)
    ensures ',' !in w && ':' !in w
  {
  }

  lemma NoCommaIn(x: string, y: string, z: string, s: string)
    requires ',' !in x && ',' !in y && ',' !in z
    requires s == x + y + z
    ensures ',' !in s
  {
  }

  lemma {:induction false} CountPositive(s: string, c: char)
    requires Count(s, c) > 0
    ensures c in s
  {
    if s[0] != c {
      CountPositive(s[1..], c);
    }
  }

  /** A piece with more than one colon is a format error. */
  lemma TooManyColons(part: string)
    requires Count(part, ':') >= 2
    ensures ParseSpec(part) == Err(BadFormat(part))
  {
    CountPositive(part, ':');
    SplitCount(part, ':');
  }

  /**
   * A bare port outside [1, 65535] is rejected, naming the port; past the
   * int64 range the error is the syntax error instead.
   */
  lemma BarePortOutOfRange(n: nat)
    requires !InPortRange(n)
    ensures ParseSpec(Decimal(n)) ==
      if n <= MAX_INT64 then Err(ProxyPortOutOfRange(n)) else Err(BadPort(Decimal(n)))
  {
    DecimalPlain(n);
    AtoiDecimal(n);
  }

  /**
   * A container port outside [1, 65535] is rejected, naming the port; past
   * the int64 range the error is the syntax error instead.
   */
  lemma ContainerPortRejected(a: nat, b: nat)
    requires InPortRange(a) && !InPortRange(b)
    ensures ParseSpec(Decimal(a) + ":" + Decimal(b)) ==
      if b <= MAX_INT64 then Err(ContainerPortOutOfRange(b)) else Err(BadContainerPort(Decimal(b)))
  {
    var x, y := Decimal(a), Decimal(b);
    assert AllSpace([]);
    assert x + [] + ":" + [] + y == x + ":" + y;
    assert [] + y == y;
    PairSpec(a, [], [], b);
  }

  lemma Spellings()
    ensures Decimal(0) == "0" && Decimal(53) == "53" && Decimal(80) == "80"
    ensures Decimal(443) == "443" && Decimal(8080) == "8080" && Decimal(8443) == "8443"
  {
    assert Decimal(808) == "808";
    assert Decimal(844) == "844";
  }

  /** A label like "80:8080, 53" yields {a, b} then {c, c}. */
  lemma PairThenBare(a: nat, b: nat, c: nat)
    requires InPortRange(a) && InPortRange(b) && InPortRange(c)
    ensures PortMappingsOf(Decimal(a) + ":" + Decimal(b) + ", " + Decimal(c))
      == Ok([PortMapping(a, b, TCP), PortMapping(c, c, TCP)])
  {
    assert AllSpace(" ") && AllSpace("");
    PairToken("", a, "", "", b, "");
    BareToken(" ", c, "");
    PairThenBareSpelling(Decimal(a), Decimal(b), Decimal(c));
    PortMappingsJoin("" + Decimal(a) + "" + ":" + "" + Decimal(b) + "", " " + Decimal(c) + "");
    assert [PortMapping(a, b, TCP)] + [PortMapping(c, c, TCP)]
      == [PortMapping(a, b, TCP), PortMapping(c, c, TCP)];
  }

  lemma PairThenBareSpelling(x: string, y: string, z: string)
    ensures x + ":" + y + ", " + z == ("" + x + "" + ":" + "" + y + "") + "," + (" " + z + "")
  {
  }

  /** The label "0:8080" is rejected: port 0 is out of range. */
  lemma ZeroPortLabel()
    ensures PortMappingsOf("0:8080") == Err(ProxyPortOutOfRange(0))
  {
    Spellings();
    var t := "0:8080";
    assert t == Decimal(0) + "" + ":" + "" + Decimal(8080);
    assert AllSpace("");
    PairPiece(0, "", "", 8080);
    PairSpec(0, "", "", 8080);
    TrimSpacePadded([], t, []);
    assert [] + t + [] == t;
    OnePiece(t);
  }

  // ---------------------------------------------------------------------
  // parseContainer
  // ---------------------------------------------------------------------

  /**
   * What ContainerInspect returned: an error, or the primary IP address and
   * the IP addresses of the container's networks, in the order Go's map
   * iteration happened to visit them.
   */
  datatype Inspection = InspectFailed | Inspected(primaryIP: string, networkIPs: seq<string>)

  /** One entry of ContainerList together with its inspect result. */
  datatype RawContainer = RawContainer(
    names: seq<string>,
    id: string,
    labels: map<string, string>,
    inspection: Inspection)

  /** The errors parseContainer returns, in the order it can return them. */
  datatype ContainerError =
    | InspectError
    | InvalidTCPPorts(cause: PortError)
    | InvalidUDPPorts(cause: PortError)
    | InvalidHTTPPort(text: string)
    | HTTPPortOutOfRange(port: int)

  /** parseContainer indexes Names[0] and slices ID[:12]; anything shorter panics. */
  predicate WellFormed(c: RawContainer) {
    |c.names| >= 1 && |c.id| >= ID_LENGTH
  }

  /** A missing label reads as "" (a Go map lookup). */
  function Label(labels: map<string, string>, key: string): string {
    if key in labels then labels[key] else ""
  }

  /** The first non-empty network IP, or "" when there is none. */
  function FirstNonEmpty(ips: seq<string>): (r: string)
    ensures r == "" <==> forall i :: 0 <= i < |ips| ==> ips[i] == ""
    ensures r != "" ==> exists i :: (0 <= i < |ips| && ips[i] == r
      && forall j :: 0 <= j < i ==> ips[j] == "")
  {
    if |ips| == 0 then ""
    else if ips[0] != "" then ips[0]
    else
      var r := FirstNonEmpty(ips[1..]);
      assert r != "" ==> exists i :: (0 <= i < |ips| && ips[i] == r
        && forall j :: 0 <= j < i ==> ips[j] == "") by {
        if r != "" {
          var i :| 0 <= i < |ips[1..]| && ips[1..][i] == r
            && forall j :: 0 <= j < i ==> ips[1..][j] == "";
          assert ips[i + 1] == r;
          assert forall j :: 0 <= j < i + 1 ==> ips[j] == "" by {
            forall j | 0 <= j < i + 1
              ensures ips[j] == ""
            {
              if j > 0 {
                assert ips[j] == ips[1..][j - 1];
              }
            }
          }
        }
      }
      r
  }

  /** The container's address: the primary IP, else the first non-empty network IP. */
  function ContainerIP(primary: string, networks: seq<string>): string {
    if primary != "" then primary else FirstNonEmpty(networks)
  }

  /** Every mapping of `ms`, tagged with `p`. */
  function Tagged(ms: seq<PortMapping>, p: Protocol): (r: seq<PortMapping>)
    ensures |r| == |ms|
    ensures forall i :: 0 <= i < |ms| ==> r[i] == ms[i].(protocol := p)
  {
    seq(|ms|, i requires 0 <= i < |ms| => ms[i].(protocol := p))
  }

  /** The mappings of one ports label; an empty label is not parsed at all. */
  function PortsOf(text: string): Result<seq<PortMapping>, PortError> {
    if text == "" then Ok([]) else PortMappingsOf(text)
  }

  /** proxy.http.port: 80 when absent, else a trimmed integer in [1, 65535]. */
  function HTTPPortOf(text: string): (r: Result<int, ContainerError>)
    ensures r.Ok? ==> InPortRange(r.value)
  {
    if text == "" then Ok(DEFAULT_HTTP_PORT)
    else
      match Atoi(TrimSpace(text))
      case None => Err(InvalidHTTPPort(text))
      case Some(p) =>
        if p < MIN_PORT || p > MAX_PORT then Err(HTTPPortOutOfRange(p)) else Ok(p)
  }

  /** proxy.http.https: true exactly for "true" in any (ASCII) case, white space trimmed. */
  function HTTPSOf(text: string): bool {
    if text == "" then false else ToLower(TrimSpace(text)) == "true"
  }

  /** The HTTP mapping of the labels: none without a host label. */
  function HTTPOf(labels: map<string, string>): Result<Option<HTTPMapping>, ContainerError> {
    var host := Label(labels, HTTP_HOST_LABEL);
    if host == "" then Ok(None)
    else
      match HTTPPortOf(Label(labels, HTTP_PORT_LABEL))
      case Err(e) => Err(e)
      case Ok(port) =>
        Ok(Some(HTTPMapping(Pieces(host), port, HTTPSOf(Label(labels, HTTP_HTTPS_LABEL)))))
  }

  /** The label half of parseContainer, once the container has an address. */
  function Interpret(name: string, id: string, ip: string, labels: map<string, string>)
    : Result<Option<ContainerInfo>, ContainerError>
  {
    var tcpLabel, udpLabel := Label(labels, TCP_PORTS_LABEL), Label(labels, UDP_PORTS_LABEL);
    if tcpLabel == "" && udpLabel == "" && Label(labels, HTTP_HOST_LABEL) == "" then Ok(None)
    else
      match LabelMappings(tcpLabel, udpLabel)
      case Err(e) => Err(e)
      case Ok(mappings) =>
        match HTTPOf(labels)
        case Err(e) => Err(e)
        case Ok(http) => Ok(Some(ContainerInfo(name, id, ip, mappings, http)))
  }

  /** The TCP mappings, then the UDP mappings, each tagged; the first bad label is the error. */
  function LabelMappings(tcpLabel: string, udpLabel: string): Result<seq<PortMapping>, ContainerError> {
    match PortsOf(tcpLabel)
    case Err(e) => Err(InvalidTCPPorts(e))
    case Ok(tcp) =>
      match PortsOf(udpLabel)
      case Err(e) => Err(InvalidUDPPorts(e))
      case Ok(udp) => Ok(Tagged(tcp, TCP) + Tagged(udp, UDP))
  }

  /** parseContainer: an info, a skip (None) or an error. */
  function Resolve(c: RawContainer): Result<Option<ContainerInfo>, ContainerError>
    requires WellFormed(c)
  {
    match c.inspection
    case InspectFailed => Err(InspectError)
    case Inspected(primary, networks) =>
      var ip := ContainerIP(primary, networks);
      if ip == "" then Ok(None)
      else Interpret(TrimPrefix(c.names[0], "/"), c.id[..ID_LENGTH], ip, c.labels)
  }

  lemma {:induction false} FirstNonEmptyAt(ips: seq<string>, i: nat)
    requires i < |ips| && ips[i] != ""
    requires forall j :: 0 <= j < i ==> ips[j] == ""
    ensures FirstNonEmpty(ips) == ips[i]
  {
    if i > 0 {
      assert ips[0] == "";
      FirstNonEmptyAt(ips[1..], i - 1);
    }
  }

  /** The tagging loops of parseContainer (client.go:169-174, 188-193). */
  method AppendTagged(acc: seq<PortMapping>, ms: seq<PortMapping>, p: Protocol) returns (r: seq<PortMapping>)
    ensures r == acc + Tagged(ms, p)
  {
    r := acc;
    var i := 0;
    while i < |ms|
      invariant 0 <= i <= |ms|
      invariant r == acc + Tagged(ms[..i], p)
    {
      assert Tagged(ms[..i + 1], p) == Tagged(ms[..i], p) + [ms[i].(protocol := p)];
      r := r + [ms[i].(protocol := p)];
      i := i + 1;
    }
    assert ms[..i] == ms;
  }

  /** The address lookup of parseContainer (client.go:118-127). */
  method LookupIP(primary: string, networks: seq<string>) returns (ip: string)
    ensures ip == ContainerIP(primary, networks)
  {
    ip := primary;
    if ip == "" {
      var i := 0;
      while i < |networks|
        invariant 0 <= i <= |networks|
        invariant forall j :: 0 <= j < i ==> networks[j] == ""
      {
        if networks[i] != "" {
          ip := networks[i];
          FirstNonEmptyAt(networks, i);
          return;
        }
        i := i + 1;
      }
    }
  }

  /** The hostnames of proxy.http.host, split and then trimmed in place (client.go:203-206). */
  method SplitHostnames(host: string) returns (hostnames: seq<string>)
    ensures hostnames == Pieces(host)
  {
    var parts := Split(host, ',');
    var a := new string[|parts|](j requires 0 <= j < |parts| => parts[j]);
    var i := 0;
    while i < a.Length
      invariant 0 <= i <= a.Length == |parts|
      invariant forall j :: 0 <= j < i ==> a[j] == TrimSpace(parts[j])
      invariant forall j :: i <= j < a.Length ==> a[j] == parts[j]
    {
      a[i] := TrimSpace(a[i]);
      i := i + 1;
    }
    hostnames := a[..];
  }

  /** parseContainer (client.go:108-254). */
  method ParseContainer(c: RawContainer) returns (r: Result<Option<ContainerInfo>, ContainerError>)
    requires WellFormed(c)
    ensures r == Resolve(c)
  {
    var name := TrimPrefix(c.names[0], "/");
    var id := c.id[..ID_LENGTH];
    if c.inspection.InspectFailed? {
      return Err(InspectError);
    }
    var ip := LookupIP(c.inspection.primaryIP, c.inspection.networkIPs);
    if ip == "" {
      return Ok(None);
    }
    var tcpText := Label(c.labels, TCP_PORTS_LABEL);
    var udpText := Label(c.labels, UDP_PORTS_LABEL);
    var hostText := Label(c.labels, HTTP_HOST_LABEL);
    if tcpText == "" && udpText == "" && hostText == "" {
      return Ok(None);
    }
    var mappings := ParseMappings(tcpText, udpText);
    if mappings.Err? {
      return Err(mappings.error);
    }
    var http := ParseHTTP(c.labels);
    if http.Err? {
      return Err(http.error);
    }
    return Ok(Some(ContainerInfo(name, id, ip, mappings.value, http.value)));
  }

  /** The TCP and UDP label parsing and tagging of parseContainer (client.go:155-195). */
  method ParseMappings(tcpText: string, udpText: string) returns (r: Result<seq<PortMapping>, ContainerError>)
    ensures r == LabelMappings(tcpText, udpText)
  {
    var mappings: seq<PortMapping> := [];
    ghost var tcp: seq<PortMapping> := [];
    if tcpText != "" {
      var parsed := ParsePortMappings(tcpText);
      if parsed.Err? {
        return Err(InvalidTCPPorts(parsed.error));
      }
      tcp := parsed.value;
      mappings := AppendTagged(mappings, parsed.value, TCP);
    }
    assert PortsOf(tcpText) == Ok(tcp);
    ghost var udp: seq<PortMapping> := [];
    if udpText != "" {
      var parsed := ParsePortMappings(udpText);
      if parsed.Err? {
        return Err(InvalidUDPPorts(parsed.error));
      }
      udp := parsed.value;
      mappings := AppendTagged(mappings, parsed.value, UDP);
    }
    assert PortsOf(udpText) == Ok(udp);
    assert mappings == Tagged(tcp, TCP) + Tagged(udp, UDP);
    return Ok(mappings);
  }

  /** The HTTP label parsing of parseContainer (client.go:197-236). */
  method ParseHTTP(labels: map<string, string>) returns (r: Result<Option<HTTPMapping>, ContainerError>)
    ensures r == HTTPOf(labels)
  {
    var hostText := Label(labels, HTTP_HOST_LABEL);
    if hostText == "" {
      return Ok(None);
    }
    var portText := Label(labels, HTTP_PORT_LABEL);
    var httpsText := Label(labels, HTTP_HTTPS_LABEL);
    var hostnames := SplitHostnames(hostText);
    var port := DEFAULT_HTTP_PORT;
    if portText != "" {
      var p := Atoi(TrimSpace(portText));
      if p.None? {
        return Err(InvalidHTTPPort(portText));
      }
      port := p.value;
      if port < MIN_PORT || port > MAX_PORT {
        return Err(HTTPPortOutOfRange(port));
      }
    }
    var https := false;
    if httpsText != "" {
      https := ToLower(TrimSpace(httpsText)) == "true";
    }
    assert HTTPPortOf(portText) == Ok(port);
    return Ok(Some(HTTPMapping(hostnames, port, https)));
  }

  // Properties of parseContainer

  /** A container is skipped (no info, no error) exactly when it has no address or no proxy label. */
  lemma ResolveSkips(c: RawContainer)
    requires WellFormed(c)
    ensures Resolve(c) == Ok(None) <==> (c.inspection.Inspected? &&
      (ContainerIP(c.inspection.primaryIP, c.inspection.networkIPs) == ""
       || (Label(c.labels, TCP_PORTS_LABEL) == "" && Label(c.labels, UDP_PORTS_LABEL) == ""
           && Label(c.labels, HTTP_HOST_LABEL) == "")))
  {
  }

  /**
   * A resolved container carries the trimmed name, the 12-character ID and
   * its address, then all TCP mappings (in label order) followed by all UDP
   * mappings (in label order), each tagged with its protocol and in range.
   */
  lemma ResolvedMappings(c: RawContainer)
    requires WellFormed(c) && Resolve(c).Ok? && Resolve(c).value.Some?
    ensures c.inspection.Inspected?
    ensures var info := Resolve(c).value.value;
      && info.name == TrimPrefix(c.names[0], "/")
      && info.id == c.id[..ID_LENGTH]
      && info.ip == ContainerIP(c.inspection.primaryIP, c.inspection.networkIPs) != ""
    ensures PortsOf(Label(c.labels, TCP_PORTS_LABEL)).Ok?
    ensures PortsOf(Label(c.labels, UDP_PORTS_LABEL)).Ok?
    ensures var info := Resolve(c).value.value;
      var tcp, udp := PortsOf(Label(c.labels, TCP_PORTS_LABEL)).value, PortsOf(Label(c.labels, UDP_PORTS_LABEL)).value;
      && |info.mappings| == |tcp| + |udp|
      && info.mappings[..|tcp|] == tcp
      && (forall i :: 0 <= i < |tcp| ==> info.mappings[i].protocol == TCP)
      && (forall i :: 0 <= i < |udp| ==> info.mappings[|tcp| + i] == udp[i].(protocol := UDP))
      && (forall i :: 0 <= i < |info.mappings| ==> ValidMapping(info.mappings[i]))
  {
    var info := Resolve(c).value.value;
    var tcpLabel, udpLabel := Label(c.labels, TCP_PORTS_LABEL), Label(c.labels, UDP_PORTS_LABEL);
    var tcp, udp := PortsOf(tcpLabel).value, PortsOf(udpLabel).value;
    assert info.mappings == Tagged(tcp, TCP) + Tagged(udp, UDP);
    PortsValid(tcpLabel);
    PortsValid(udpLabel);
    TaggedJoin(tcp, udp);
  }

  /** The mappings of a ports label that parses are TCP-tagged and in range. */
  lemma PortsValid(text: string)
    requires PortsOf(text).Ok?
    ensures forall i :: 0 <= i < |PortsOf(text).value| ==>
      ValidMapping(PortsOf(text).value[i]) && PortsOf(text).value[i].protocol == TCP
  {
    if text != "" {
      ParseTokensValid(Pieces(text));
    }
  }

  /** The TCP list followed by the UDP-tagged UDP list: positions, tags and ranges. */
  /** Tagging distributes over concatenation, and only the last tag matters. */
  lemma TaggedAlgebra(a: seq<PortMapping>, b: seq<PortMapping>, p: Protocol, q: Protocol)
    ensures Tagged(a + b, p) == Tagged(a, p) + Tagged(b, p)
    ensures Tagged(Tagged(a, q), p) == Tagged(a, p)
    ensures forall i :: 0 <= i < |a| ==>
      Tagged(a, p)[i].protocol == p && Tagged(a, p)[i].proxyPort == a[i].proxyPort
      && Tagged(a, p)[i].containerPort == a[i].containerPort
  {
  }

  lemma TaggedJoin(tcp: seq<PortMapping>, udp: seq<PortMapping>)
    requires forall i :: 0 <= i < |tcp| ==> ValidMapping(tcp[i]) && tcp[i].protocol == TCP
    requires forall i :: 0 <= i < |udp| ==> ValidMapping(udp[i])
    ensures var ms := Tagged(tcp, TCP) + Tagged(udp, UDP);
      && |ms| == |tcp| + |udp|
      && ms[..|tcp|] == tcp
      && (forall i :: 0 <= i < |tcp| ==> ms[i].protocol == TCP)
      && (forall i :: 0 <= i < |udp| ==> ms[|tcp| + i] == udp[i].(protocol := UDP))
      && (forall i :: 0 <= i < |ms| ==> ValidMapping(ms[i]))
  {
    var ms := Tagged(tcp, TCP) + Tagged(udp, UDP);
    assert Tagged(tcp, TCP) == tcp;
    assert ms[..|tcp|] == tcp;
    forall i | 0 <= i < |ms|
      ensures ValidMapping(ms[i])
    {
      if i >= |tcp| {
        assert ms[i] == udp[i - |tcp|].(protocol := UDP);
      }
    }
  }

  /** Every mapping a successful parse returns is TCP-tagged and has both ports in range. */
  lemma ParseTokensValid(toks: seq<string>)
    requires ParseTokens(toks).Ok?
    ensures forall i :: 0 <= i < |ParseTokens(toks).value| ==>
      ValidMapping(ParseTokens(toks).value[i]) && ParseTokens(toks).value[i].protocol == TCP
  {
    ParseTokensValues(toks);
  }

  /** A bad TCP ports label fails the container; so does a bad UDP one once the TCP label is fine. */
  lemma ResolvePortErrors(c: RawContainer)
    requires WellFormed(c) && c.inspection.Inspected?
    requires ContainerIP(c.inspection.primaryIP, c.inspection.networkIPs) != ""
    ensures var t := Label(c.labels, TCP_PORTS_LABEL);
      t != "" && PortMappingsOf(t).Err? ==> Resolve(c) == Err(InvalidTCPPorts(PortMappingsOf(t).error))
    ensures var t, u := Label(c.labels, TCP_PORTS_LABEL), Label(c.labels, UDP_PORTS_LABEL);
      PortsOf(t).Ok? && u != "" && PortMappingsOf(u).Err? ==> Resolve(c) == Err(InvalidUDPPorts(PortMappingsOf(u).error))
  {
  }

  /**
   * The HTTP mapping exists iff the host label is non-empty. Its hostnames
   * are the trimmed comma pieces (blank ones kept), its port is 80 or the
   * parsed in-range label, and HTTPS holds iff the trimmed, lower-cased flag
   * is "true".
   */
  lemma ResolvedHTTP(c: RawContainer)
    requires WellFormed(c) && Resolve(c).Ok? && Resolve(c).value.Some?
    ensures var http, host := Resolve(c).value.value.http, Label(c.labels, HTTP_HOST_LABEL);
      http.Some? <==> host != ""
    ensures var http, host := Resolve(c).value.value.http, Label(c.labels, HTTP_HOST_LABEL);
      http.Some? ==>
        && http.value.hostnames == Pieces(host)
        && |http.value.hostnames| == Count(host, ',') + 1
        && InPortRange(http.value.containerPort)
    ensures var http, portText := Resolve(c).value.value.http, Label(c.labels, HTTP_PORT_LABEL);
      http.Some? ==>
        (portText == "" ==> http.value.containerPort == DEFAULT_HTTP_PORT)
        && (portText != "" ==> Atoi(TrimSpace(portText)) == Some(http.value.containerPort))
    ensures var http, flag := Resolve(c).value.value.http, Label(c.labels, HTTP_HTTPS_LABEL);
      http.Some? ==> (http.value.https <==> ToLower(TrimSpace(flag)) == "true")
  {
    var http, host := Resolve(c).value.value.http, Label(c.labels, HTTP_HOST_LABEL);
    if http.Some? {
      SplitCount(host, ',');
      var flag := Label(c.labels, HTTP_HTTPS_LABEL);
      if flag == "" {
        assert TrimSpace(flag) == "";
      }
    }
  }

  /** The HTTP port label is rejected when it is not an integer or is out of range. */
  lemma HTTPPortErrors(text: string)
    requires text != ""
    ensures Atoi(TrimSpace(text)).None? ==> HTTPPortOf(text) == Err(InvalidHTTPPort(text))
    ensures Atoi(TrimSpace(text)).Some? && !InPortRange(Atoi(TrimSpace(text)).value) ==>
      HTTPPortOf(text) == Err(HTTPPortOutOfRange(Atoi(TrimSpace(text)).value))
  {
  }

  /** Comma pieces of a join are the pieces of each side; there is one more piece than commas. */
  lemma PiecesJoin(a: string, b: string)
    ensures Pieces(a + "," + b) == Pieces(a) + Pieces(b)
    ensures |Pieces(a)| == Count(a, ',') + 1
  {
    SplitAround(a, ',', b);
    assert a + "," + b == a + [','] + b;
    SplitCount(a, ',');
  }

  /** An empty hostname between two commas is kept as "". */
  lemma HostnamesKeepBlanks(a: string, b: string)
    ensures Pieces(a + ",," + b) == Pieces(a) + [""] + Pieces(b)
  {
    assert a + ",," + b == a + "," + ("" + "," + b);
    PiecesJoin(a, "" + "," + b);
    PiecesJoin("", b);
    assert "" + "," + b == "," + b;
    assert Split("", ',') == [""];
    assert Pieces("") == [""];
  }

  /** The HTTPS flag is on exactly when the trimmed, lower-cased label reads "true". */
  lemma HTTPSOfIff(text: string)
    ensures HTTPSOf(text) <==> ToLower(TrimSpace(text)) == "true"
  {
    if text == "" {
      assert TrimSpace(text) == [] by { TrimSpaceEmptyIff(text); }
    }
  }

  /** Examples of the HTTPS flag. */
  lemma HTTPSExamples()
    ensures HTTPSOf("TRUE") && HTTPSOf(" True ")
    ensures !HTTPSOf("yes") && !HTTPSOf("1") && !HTTPSOf("")
  {
    assert TrimSpace("TRUE") == "TRUE";
    assert TrimSpace(" True ") == "True";
    assert TrimSpace("yes") == "yes";
    assert TrimSpace("1") == "1";
  }

  // ---------------------------------------------------------------------
  // ScanContainers
  // ---------------------------------------------------------------------

  /** What ContainerList returned, each container with its inspect result. */
  datatype Listing = ListFailed | Listed(containers: seq<RawContainer>)

  datatype ScanError = ListError

  predicate AllWellFormed(cs: seq<RawContainer>) {
    forall i :: 0 <= i < |cs| ==> WellFormed(cs[i])
  }

  /** What parseContainer returns for each listed container, in list order. */
  function Outcomes(cs: seq<RawContainer>): seq<Result<Option<ContainerInfo>, ContainerError>>
    requires AllWellFormed(cs)
  {
    seq(|cs|, i requires 0 <= i < |cs| => Resolve(cs[i]))
  }

  /** An outcome the scan keeps: a non-nil info and no error. */
  predicate Keeps(o: Result<Option<ContainerInfo>, ContainerError>) {
    o.Ok? && o.value.Some?
  }

  /** The infos of the kept outcomes, in order; skips and errors drop out. */
  function Kept(os: seq<Result<Option<ContainerInfo>, ContainerError>>): (r: seq<ContainerInfo>)
    ensures |r| <= |os|
  {
    if |os| == 0 then []
    else
      var last := os[|os| - 1];
      Kept(os[..|os| - 1]) + (if Keeps(last) then [last.value.value] else [])
  }

  /** ScanContainers: a list error is the only error. */
  function Scan(l: Listing): Result<seq<ContainerInfo>, ScanError>
    requires l.Listed? ==> AllWellFormed(l.containers)
  {
    match l
    case ListFailed => Err(ListError)
    case Listed(cs) => Ok(Kept(Outcomes(cs)))
  }

  /** ScanContainers (client.go:80-105). */
  method ScanContainers(l: Listing) returns (r: Result<seq<ContainerInfo>, ScanError>)
    requires l.Listed? ==> AllWellFormed(l.containers)
    ensures r == Scan(l)
  {
    if l.ListFailed? {
      return Err(ListError);
    }
    var cs := l.containers;
    ghost var os := Outcomes(cs);
    var results: seq<ContainerInfo> := [];
    var i := 0;
    while i < |cs|
      invariant 0 <= i <= |cs| == |os|
      invariant results == Kept(os[..i])
    {
      var info := ParseContainer(cs[i]);
      assert os[i] == info;
      KeptSnoc(os, i);
      if info.Ok? && info.value.Some? {
        results := results + [info.value.value];
      }
      i := i + 1;
    }
    assert os[..i] == os;
    return Ok(results);
  }

  /** Keeping from one more outcome appends that outcome's info when it is kept. */
  lemma KeptSnoc(os: seq<Result<Option<ContainerInfo>, ContainerError>>, i: nat)
    requires i < |os|
    ensures Kept(os[..i + 1]) == Kept(os[..i]) + (if Keeps(os[i]) then [os[i].value.value] else [])
  {
    assert os[..i + 1][..i] == os[..i];
  }

  /** Keeping from two runs of outcomes is keeping from each. */
  lemma {:induction false} KeptConcat(a: seq<Result<Option<ContainerInfo>, ContainerError>>, b: seq<Result<Option<ContainerInfo>, ContainerError>>)
    ensures Kept(a + b) == Kept(a) + Kept(b)
  {
    if b == [] {
      assert a + b == a;
    } else {
      var b' := b[..|b| - 1];
      assert (a + b)[..|a + b| - 1] == a + b';
      assert (a + b)[|a + b| - 1] == b[|b| - 1];
      KeptConcat(a, b');
    }
  }

  /** Scanning a list is scanning each of its two halves. */
  lemma ScanConcat(a: seq<RawContainer>, b: seq<RawContainer>)
    requires AllWellFormed(a) && AllWellFormed(b)
    ensures AllWellFormed(a + b)
    ensures Scan(Listed(a + b)).value == Scan(Listed(a)).value + Scan(Listed(b)).value
  {
    assert Outcomes(a + b) == Outcomes(a) + Outcomes(b);
    KeptConcat(Outcomes(a), Outcomes(b));
  }

  /** Indices of the kept outcomes, in increasing order. */
  function KeptIndices(os: seq<Result<Option<ContainerInfo>, ContainerError>>): (r: seq<nat>)
    ensures forall k :: 0 <= k < |r| ==> r[k] < |os| && Keeps(os[r[k]])
    ensures forall k, j :: 0 <= k < j < |r| ==> r[k] < r[j]
    ensures forall i :: 0 <= i < |os| && Keeps(os[i]) ==> i in r
  {
    if |os| == 0 then []
    else
      var last := |os| - 1;
      var r0 := KeptIndices(os[..last]);
      var r := r0 + (if Keeps(os[last]) then [last] else []);
      IndicesStep(os, r0, r);
      r
  }

  /** One step of KeptIndices: extending the indices of a prefix by its last kept position. */
  lemma IndicesStep(os: seq<Result<Option<ContainerInfo>, ContainerError>>, r0: seq<nat>, r: seq<nat>)
    requires |os| > 0
    requires forall k :: 0 <= k < |r0| ==> r0[k] < |os| - 1 && Keeps(os[r0[k]])
    requires forall k, j :: 0 <= k < j < |r0| ==> r0[k] < r0[j]
    requires forall i :: 0 <= i < |os| - 1 && Keeps(os[i]) ==> i in r0
    requires r == r0 + (if Keeps(os[|os| - 1]) then [|os| - 1] else [])
    ensures forall k :: 0 <= k < |r| ==> r[k] < |os| && Keeps(os[r[k]])
    ensures forall k, j :: 0 <= k < j < |r| ==> r[k] < r[j]
    ensures forall i :: 0 <= i < |os| && Keeps(os[i]) ==> i in r
  {
    assert forall k :: 0 <= k < |r0| ==> r[k] == r0[k];
  }

  /**
   * The scan keeps exactly the containers that resolve to an info, in list
   * order: its k-th info is the info of the k-th such container.
   */
  lemma {:induction false} KeptExactly(os: seq<Result<Option<ContainerInfo>, ContainerError>>)
    ensures |Kept(os)| == |KeptIndices(os)|
    ensures forall k :: 0 <= k < |KeptIndices(os)| ==> os[KeptIndices(os)[k]] == Ok(Some(Kept(os)[k]))
  {
    if |os| > 0 {
      var last := |os| - 1;
      var init := os[..last];
      KeptExactly(init);
      var r0, infos0 := KeptIndices(init), Kept(init);
      var r, infos := KeptIndices(os), Kept(os);
      assert r == r0 + (if Keeps(os[last]) then [last] else []);
      assert infos == infos0 + (if Keeps(os[last]) then [os[last].value.value] else []);
      forall k | 0 <= k < |r|
        ensures os[r[k]] == Ok(Some(infos[k]))
      {
        if k < |r0| {
          assert r[k] == r0[k] && infos[k] == infos0[k];
          assert os[r0[k]] == init[r0[k]];
        }
      }
    }
  }

  /** A scan never fails once the list succeeded: per-container errors are dropped. */
  lemma {:induction false} KeptNothing(os: seq<Result<Option<ContainerInfo>, ContainerError>>)
    requires forall i :: 0 <= i < |os| ==> !Keeps(os[i])
    ensures Kept(os) == []
  {
    if |os| > 0 {
      KeptNothing(os[..|os| - 1]);
    }
  }

  /** A listed scan always succeeds, and is empty when no container resolves. */
  lemma ScanSwallowsErrors(cs: seq<RawContainer>)
    requires AllWellFormed(cs)
    ensures Scan(Listed(cs)).Ok?
    ensures (forall i :: 0 <= i < |cs| ==> !Keeps(Resolve(cs[i]))) ==> Scan(Listed(cs)) == Ok([])
  {
    if forall i :: 0 <= i < |cs| ==> !Keeps(Resolve(cs[i])) {
      KeptNothing(Outcomes(cs));
    }
  }
}
