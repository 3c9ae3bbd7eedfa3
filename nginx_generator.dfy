/**
 * The pure half of nginx/generator.go: flattening containers into template
 * data (buildTemplateData), the three first-claim-wins conflict checks
 * (validateConflicts) and upstream naming (hostnameToUpstream).
 *
 * The RFC 3339 timestamps buildTemplateData stamps into both records are
 * clock reads and are not modelled.
 */
module Generator {
  import opened Wrappers
  import opened GoStrings
  import opened Docker

  datatype StreamMapping = StreamMapping(proxyPort: int, containerPort: int, containerIP: string)

  datatype StreamContainer = StreamContainer(
    name: string,
    id: string,
    tcpMappings: seq<StreamMapping>,
    udpMappings: seq<StreamMapping>)

  datatype StreamData = StreamData(containers: seq<StreamContainer>)

  datatype HTTPServer = HTTPServer(
    containerName: string,
    containerID: string,
    upstreamName: string,
    hostname: string,
    containerIP: string,
    containerPort: int,
    https: bool)

  datatype HTTPData = HTTPData(servers: seq<HTTPServer>)

  // ---------------------------------------------------------------------
  // hostnameToUpstream
  // ---------------------------------------------------------------------

  const UPSTREAM_PREFIX := "http_"

  /** The regexp `[.-]` replaced by "_". */
  function Underscored(c: char): char {
    if c == '.' || c == '-' then '_' else c
  }

  /** hostnameToUpstream (generator.go:306-311). */
  function HostnameToUpstream(h: string): (r: string)
    ensures |r| == |h| + |UPSTREAM_PREFIX| && r[..|UPSTREAM_PREFIX|] == UPSTREAM_PREFIX
    ensures '.' !in r && '-' !in r
    ensures forall i :: 0 <= i < |h| && !('A' <= h[i] <= 'Z') && h[i] != '.' && h[i] != '-' ==>
      r[|UPSTREAM_PREFIX| + i] == h[i]
  {
    var body := ToLower(seq(|h|, i requires 0 <= i < |h| => Underscored(h[i])));
    assert forall i :: 0 <= i < |body| ==> body[i] != '.' && body[i] != '-';
    UPSTREAM_PREFIX + body
  }

  /** Two hostnames get the same upstream iff they agree character by character after folding. */
  lemma UpstreamEqualIff(h1: string, h2: string)
    ensures HostnameToUpstream(h1) == HostnameToUpstream(h2) <==>
      (|h1| == |h2| && forall i :: 0 <= i < |h1| ==> LowerChar(Underscored(h1[i])) == LowerChar(Underscored(h2[i])))
  {
    var r1, r2 := HostnameToUpstream(h1), HostnameToUpstream(h2);
    if r1 == r2 {
      assert |h1| == |h2|;
      forall i | 0 <= i < |h1|
        ensures LowerChar(Underscored(h1[i])) == LowerChar(Underscored(h2[i]))
      {
        assert r1[5 + i] == r2[5 + i];
      }
    } else if |h1| == |h2| {
      var b1 := seq(|h1|, i requires 0 <= i < |h1| => Underscored(h1[i]));
      var b2 := seq(|h2|, i requires 0 <= i < |h2| => Underscored(h2[i]));
      assert ToLower(b1) != ToLower(b2);
      var i :| 0 <= i < |h1| && ToLower(b1)[i] != ToLower(b2)[i];
      assert LowerChar(Underscored(h1[i])) != LowerChar(Underscored(h2[i]));
    }
  }

  // ---------------------------------------------------------------------
  // buildTemplateData
  // ---------------------------------------------------------------------

  /** The mappings of protocol `p`, in order, each carrying the container address. */
  function Part(ms: seq<PortMapping>, p: Protocol, ip: string): (r: seq<StreamMapping>)
    ensures |r| <= |ms|
    ensures forall k :: 0 <= k < |r| ==> r[k].containerIP == ip
  {
    if |ms| == 0 then []
    else
      var m := ms[|ms| - 1];
      Part(ms[..|ms| - 1], p, ip) +
        (if m.protocol == p then [StreamMapping(m.proxyPort, m.containerPort, ip)] else [])
  }

  /** The stream entry of one container. */
  function StreamOf(c: ContainerInfo): StreamContainer {
    StreamContainer(c.name, c.id, Part(c.mappings, TCP, c.ip), Part(c.mappings, UDP, c.ip))
  }

  /** One stream entry per container that has at least one mapping, in order. */
  function StreamContainers(cs: seq<ContainerInfo>): (r: seq<StreamContainer>)
    ensures |r| <= |cs|
  {
    if |cs| == 0 then []
    else
      var c := cs[|cs| - 1];
      StreamContainers(cs[..|cs| - 1]) + (if |c.mappings| > 0 then [StreamOf(c)] else [])
  }

  /** The server records of one container: one per hostname, in order. */
  function ServersOf(c: ContainerInfo): (r: seq<HTTPServer>)
    ensures c.http.None? ==> r == []
    ensures c.http.Some? ==> |r| == |c.http.value.hostnames|
  {
    match c.http
    case None => []
    case Some(h) =>
      seq(|h.hostnames|, k requires 0 <= k < |h.hostnames| =>
        HTTPServer(c.name, c.id, HostnameToUpstream(h.hostnames[k]), h.hostnames[k], c.ip, h.containerPort, h.https))
  }

  /** All server records, container by container. */
  function HTTPServers(cs: seq<ContainerInfo>): seq<HTTPServer> {
    if |cs| == 0 then [] else HTTPServers(cs[..|cs| - 1]) + ServersOf(cs[|cs| - 1])
  }

  /** What buildTemplateData returns, timestamps aside. */
  function TemplateData(cs: seq<ContainerInfo>): (StreamData, HTTPData) {
    (StreamData(StreamContainers(cs)), HTTPData(HTTPServers(cs)))
  }

  /** The inner loop of buildTemplateData (generator.go:139-151). */
  method Partition(ms: seq<PortMapping>, ip: string) returns (tcp: seq<StreamMapping>, udp: seq<StreamMapping>)
    ensures tcp == Part(ms, TCP, ip) && udp == Part(ms, UDP, ip)
  {
    tcp, udp := [], [];
    var i := 0;
    while i < |ms|
      invariant 0 <= i <= |ms|
      invariant tcp == Part(ms[..i], TCP, ip) && udp == Part(ms[..i], UDP, ip)
    {
      assert ms[..i + 1][..i] == ms[..i];
      var m := ms[i];
      var sm := StreamMapping(m.proxyPort, m.containerPort, ip);
      if m.protocol == TCP {
        tcp := tcp + [sm];
      } else {
        udp := udp + [sm];
      }
      i := i + 1;
    }
    assert ms[..i] == ms;
  }

  /** The hostname loop of buildTemplateData (generator.go:157-169). */
  method ServerRecords(c: ContainerInfo) returns (servers: seq<HTTPServer>)
    ensures servers == ServersOf(c)
  {
    servers := [];
    if c.http.Some? {
      var h := c.http.value;
      var j := 0;
      while j < |h.hostnames|
        invariant 0 <= j <= |h.hostnames|
        invariant servers == ServersOf(c)[..j]
      {
        var hostname := h.hostnames[j];
        var server := HTTPServer(c.name, c.id, HostnameToUpstream(hostname), hostname, c.ip, h.containerPort, h.https);
        assert ServersOf(c)[..j + 1] == ServersOf(c)[..j] + [server];
        servers := servers + [server];
        j := j + 1;
      }
      assert ServersOf(c)[..j] == ServersOf(c);
    }
  }

  /** buildTemplateData (generator.go:118-174). */
  method BuildTemplateData(cs: seq<ContainerInfo>) returns (sd: StreamData, hd: HTTPData)
    ensures (sd, hd) == TemplateData(cs)
  {
    var containers: seq<StreamContainer> := [];
    var servers: seq<HTTPServer> := [];
    var i := 0;
    while i < |cs|
      invariant 0 <= i <= |cs|
      invariant containers == StreamContainers(cs[..i])
      invariant servers == HTTPServers(cs[..i])
    {
      assert cs[..i + 1][..i] == cs[..i];
      var c := cs[i];
      if |c.mappings| > 0 {
        var tcp, udp := Partition(c.mappings, c.ip);
        containers := containers + [StreamContainer(c.name, c.id, tcp, udp)];
      }
      var records := ServerRecords(c);
      servers := servers + records;
      i := i + 1;
    }
    assert cs[..i] == cs;
    sd, hd := StreamData(containers), HTTPData(servers);
  }

  // Properties of the template data

  /** The protocol split distributes over concatenation. */
  lemma {:induction false} PartConcat(a: seq<PortMapping>, b: seq<PortMapping>, p: Protocol, ip: string)
    ensures Part(a + b, p, ip) == Part(a, p, ip) + Part(b, p, ip)
  {
    if b == [] {
      assert a + b == a;
    } else {
      var b' := b[..|b| - 1];
      assert (a + b)[..|a + b| - 1] == a + b';
      assert (a + b)[|a + b| - 1] == b[|b| - 1];
      PartConcat(a, b', p, ip);
    }
  }

  /** TCP and UDP partition the mappings: every mapping lands in exactly one of the two lists. */
  lemma {:induction false} PartitionCount(ms: seq<PortMapping>, ip: string)
    ensures |Part(ms, TCP, ip)| + |Part(ms, UDP, ip)| == |ms|
  {
    if |ms| > 0 {
      PartitionCount(ms[..|ms| - 1], ip);
    }
  }

  /** The stream form of a list of mappings, in order, with the container address. */
  function Streamed(ms: seq<PortMapping>, ip: string): seq<StreamMapping> {
    seq(|ms|, k requires 0 <= k < |ms| => StreamMapping(ms[k].proxyPort, ms[k].containerPort, ip))
  }

  /** A run of mappings of protocol `q` lands wholly on `q`'s side, in order. */
  lemma {:induction false} PartOfTagged(ms: seq<PortMapping>, q: Protocol, p: Protocol, ip: string)
    ensures Part(Tagged(ms, q), p, ip) == if p == q then Streamed(ms, ip) else []
  {
    if |ms| > 0 {
      var init := ms[..|ms| - 1];
      PartOfTagged(init, q, p, ip);
      assert Tagged(ms, q)[..|ms| - 1] == Tagged(init, q);
      if p == q {
        assert Streamed(ms, ip) == Streamed(init, ip) + [StreamMapping(ms[|ms| - 1].proxyPort, ms[|ms| - 1].containerPort, ip)];
      }
    }
  }

  /**
   * For a resolved container (TCP mappings, then UDP mappings), the stream
   * entry's TCP list is exactly the TCP label's mappings and its UDP list the
   * UDP label's, each in label order.
   */
  lemma StreamOfResolved(tcp: seq<PortMapping>, udp: seq<PortMapping>, ip: string)
    ensures Part(Tagged(tcp, TCP) + Tagged(udp, UDP), TCP, ip) == Streamed(tcp, ip)
    ensures Part(Tagged(tcp, TCP) + Tagged(udp, UDP), UDP, ip) == Streamed(udp, ip)
  {
    PartConcat(Tagged(tcp, TCP), Tagged(udp, UDP), TCP, ip);
    PartConcat(Tagged(tcp, TCP), Tagged(udp, UDP), UDP, ip);
    PartOfTagged(tcp, TCP, TCP, ip);
    PartOfTagged(udp, UDP, TCP, ip);
    PartOfTagged(tcp, TCP, UDP, ip);
    PartOfTagged(udp, UDP, UDP, ip);
    assert Streamed(tcp, ip) + [] == Streamed(tcp, ip);
    assert [] + Streamed(udp, ip) == Streamed(udp, ip);
  }

  /** Stream entries are built container by container. */
  lemma {:induction false} StreamContainersConcat(a: seq<ContainerInfo>, b: seq<ContainerInfo>)
    ensures StreamContainers(a + b) == StreamContainers(a) + StreamContainers(b)
  {
    if b == [] {
      assert a + b == a;
    } else {
      var b' := b[..|b| - 1];
      var c := b[|b| - 1];
      assert (a + b)[..|a + b| - 1] == a + b';
      assert (a + b)[|a + b| - 1] == c;
      StreamContainersConcat(a, b');
      var tail := if |c.mappings| > 0 then [StreamOf(c)] else [];
      assert StreamContainers(b) == StreamContainers(b') + tail;
      assert StreamContainers(a + b) == StreamContainers(a + b') + tail;
    }
  }

  /** Server records are built container by container. */
  lemma {:induction false} HTTPServersConcat(a: seq<ContainerInfo>, b: seq<ContainerInfo>)
    ensures HTTPServers(a + b) == HTTPServers(a) + HTTPServers(b)
  {
    if b == [] {
      assert a + b == a;
    } else {
      var b' := b[..|b| - 1];
      var c := b[|b| - 1];
      assert (a + b)[..|a + b| - 1] == a + b';
      assert (a + b)[|a + b| - 1] == c;
      HTTPServersConcat(a, b');
      assert HTTPServers(b) == HTTPServers(b') + ServersOf(c);
      assert HTTPServers(a + b) == HTTPServers(a + b') + ServersOf(c);
    }
  }

  /**
   * Every stream entry comes from a container with mappings, carries its
   * name and ID, and lists exactly its TCP and UDP mappings with its address.
   */
  lemma {:induction false} StreamEntriesFromContainers(cs: seq<ContainerInfo>)
    ensures forall k :: 0 <= k < |StreamContainers(cs)| ==> EntryOfSome(StreamContainers(cs)[k], cs)
  {
    if |cs| > 0 {
      var init := cs[..|cs| - 1];
      StreamEntriesFromContainers(init);
      var r0 := StreamContainers(init);
      var r := StreamContainers(cs);
      forall k | 0 <= k < |r|
        ensures EntryOfSome(r[k], cs)
      {
        if k < |r0| {
          assert r[k] == r0[k];
          var i :| 0 <= i < |init| && |init[i].mappings| > 0 && r0[k] == StreamOf(init[i]);
          assert cs[i] == init[i];
        } else {
          var i := |cs| - 1;
          assert |cs[i].mappings| > 0 && r[k] == StreamOf(cs[i]);
        }
      }
    }
  }

  /** `e` is the stream entry of some container of `cs` that has a mapping. */
  predicate EntryOfSome(e: StreamContainer, cs: seq<ContainerInfo>) {
    exists i :: 0 <= i < |cs| && |cs[i].mappings| > 0 && e == StreamOf(cs[i])
  }

  /** A container contributes a stream entry iff it has a mapping; with no containers there is nothing. */
  lemma StreamEntryIff(c: ContainerInfo)
    ensures |StreamContainers([c])| == 1 <==> |c.mappings| > 0
    ensures StreamContainers([]) == [] && HTTPServers([]) == []
  {
    assert [c][..0] == [];
  }

  /**
   * Every server record comes from one hostname of a container with an
   * HTTP mapping; it shares that container's name, ID, address, port and
   * HTTPS flag, and its upstream is the hostname's upstream name.
   */
  lemma {:induction false} ServersFromHostnames(cs: seq<ContainerInfo>)
    ensures forall k :: 0 <= k < |HTTPServers(cs)| ==> ServerOfSome(HTTPServers(cs)[k], cs)
  {
    if |cs| > 0 {
      var init := cs[..|cs| - 1];
      ServersFromHostnames(init);
      var r0 := HTTPServers(init);
      var r := HTTPServers(cs);
      var c := cs[|cs| - 1];
      forall k | 0 <= k < |r|
        ensures ServerOfSome(r[k], cs)
      {
        if k < |r0| {
          assert r[k] == r0[k];
          var i :| 0 <= i < |init| && ServerOfContainer(r0[k], init[i]);
          assert cs[i] == init[i];
          assert ServerOfContainer(r[k], cs[i]);
        } else {
          var j := k - |r0|;
          assert r[k] == ServersOf(c)[j];
          assert c.http.Some?;
          assert c.http.value.hostnames[j] == r[k].hostname;
          assert ServerOfContainer(r[k], cs[|cs| - 1]);
        }
      }
    }
  }

  /** `s` is the record of one hostname of some container of `cs`. */
  predicate ServerOfSome(s: HTTPServer, cs: seq<ContainerInfo>) {
    exists i :: 0 <= i < |cs| && ServerOfContainer(s, cs[i])
  }

  /** `s` is the record of one of `c`'s hostnames. */
  predicate ServerOfContainer(s: HTTPServer, c: ContainerInfo) {
    && c.http.Some?
    && s.hostname in c.http.value.hostnames
    && s.upstreamName == HostnameToUpstream(s.hostname)
    && s.containerName == c.name && s.containerID == c.id && s.containerIP == c.ip
    && s.containerPort == c.http.value.containerPort && s.https == c.http.value.https
  }

  /** There is one server record per hostname. */
  lemma {:induction false} ServerCount(cs: seq<ContainerInfo>)
    ensures |HTTPServers(cs)| == HostnameCount(cs)
  {
    if |cs| > 0 {
      ServerCount(cs[..|cs| - 1]);
    }
  }

  function HostnameCount(cs: seq<ContainerInfo>): nat {
    if |cs| == 0 then 0
    else
      var c := cs[|cs| - 1];
      HostnameCount(cs[..|cs| - 1]) + (if c.http.Some? then |c.http.value.hostnames| else 0)
  }

  // ---------------------------------------------------------------------
  // validateConflicts
  // ---------------------------------------------------------------------

  /** A claim of a key (a port or a hostname) by a container name. */
  type Claim<K> = (K, string)

  /** The claims of one container's mappings on their proxy ports. */
  function PortClaims(ms: seq<StreamMapping>, name: string): (r: seq<Claim<int>>)
    ensures |r| == |ms|
    ensures forall k :: 0 <= k < |ms| ==> r[k] == (ms[k].proxyPort, name)
  {
    seq(|ms|, k requires 0 <= k < |ms| => (ms[k].proxyPort, name))
  }

  /** One stream entry's mappings of protocol `p`. */
  function MappingsOf(c: StreamContainer, p: Protocol): seq<StreamMapping> {
    if p == TCP then c.tcpMappings else c.udpMappings
  }

  /** The claims on protocol `p`'s proxy ports, in the order validateConflicts visits them. */
  function StreamClaims(cs: seq<StreamContainer>, p: Protocol): seq<Claim<int>> {
    if |cs| == 0 then []
    else
      var c := cs[|cs| - 1];
      StreamClaims(cs[..|cs| - 1], p) + PortClaims(MappingsOf(c, p), c.name)
  }

  function HostClaims(servers: seq<HTTPServer>): (r: seq<Claim<string>>)
    ensures |r| == |servers|
    ensures forall k :: 0 <= k < |servers| ==> r[k] == (servers[k].hostname, servers[k].containerName)
  {
    seq(|servers|, k requires 0 <= k < |servers| => (servers[k].hostname, servers[k].containerName))
  }

  /** No key is claimed twice. */
  predicate DistinctKeys<K(==)>(claims: seq<Claim<K>>) {
    forall i, j :: 0 <= i < j < |claims| ==> claims[i].0 != claims[j].0
  }

  /** The record map after accepting `claims` in order: each key keeps its first claimant. */
  function Holders<K(==)>(claims: seq<Claim<K>>): map<K, string> {
    if |claims| == 0 then map[]
    else
      var m := Holders(claims[..|claims| - 1]);
      var (key, name) := claims[|claims| - 1];
      if key in m then m else m[key := name]
  }

  /** A detected collision: the key, the claimant recorded first, and the new claimant. */
  datatype Collision<K> = Collision(key: K, existing: string, claimant: string)

  /** The first claim whose key is already recorded, checked in order. */
  function FirstCollision<K(==)>(claims: seq<Claim<K>>): Option<Collision<K>> {
    if |claims| == 0 then None
    else
      var init := claims[..|claims| - 1];
      match FirstCollision(init)
      case Some(c) => Some(c)
      case None =>
        var (key, name) := claims[|claims| - 1];
        var m := Holders(init);
        if key in m then Some(Collision(key, m[key], name)) else None
  }

  datatype ConflictError =
    | TCPPortConflict(port: int, existing: string, claimant: string)
    | UDPPortConflict(port: int, existing: string, claimant: string)
    | HostnameConflict(hostname: string, existing: string, claimant: string)

  /** validateConflicts: TCP ports, then UDP ports, then hostnames; the first collision is the error. */
  function Conflicts(sd: StreamData, hd: HTTPData): Option<ConflictError> {
    match FirstCollision(StreamClaims(sd.containers, TCP))
    case Some(c) => Some(TCPPortConflict(c.key, c.existing, c.claimant))
    case None =>
      match FirstCollision(StreamClaims(sd.containers, UDP))
      case Some(c) => Some(UDPPortConflict(c.key, c.existing, c.claimant))
      case None =>
        match FirstCollision(HostClaims(hd.servers))
        case Some(c) => Some(HostnameConflict(c.key, c.existing, c.claimant))
        case None => None
  }

  /** Once a collision is found, later claims do not change the verdict. */
  lemma {:induction false} CollisionKept<K>(p: seq<Claim<K>>, q: seq<Claim<K>>)
    requires FirstCollision(p).Some?
    ensures FirstCollision(p + q) == FirstCollision(p)
  {
    if q != [] {
      var q' := q[..|q| - 1];
      assert (p + q)[..|p + q| - 1] == p + q';
      CollisionKept(p, q');
    } else {
      assert p + q == p;
    }
  }

  /**
   * One claim after a collision-free prefix with record map `m`: a recorded
   * key is the collision of the whole sequence, otherwise the claim is
   * recorded.
   */
  lemma ClaimStep<K>(pre: seq<Claim<K>>, x: Claim<K>, m: map<K, string>)
    requires m == Holders(pre) && FirstCollision(pre).None?
    ensures x.0 in m ==> FirstCollision(pre + [x]) == Some(Collision(x.0, m[x.0], x.1))
    ensures x.0 !in m ==> Holders(pre + [x]) == m[x.0 := x.1] && FirstCollision(pre + [x]).None?
  {
    assert (pre + [x])[..|pre|] == pre;
    assert (pre + [x])[|pre|] == x;
  }

  lemma {:induction false} StreamClaimsConcat(a: seq<StreamContainer>, b: seq<StreamContainer>, p: Protocol)
    ensures StreamClaims(a + b, p) == StreamClaims(a, p) + StreamClaims(b, p)
  {
    if b == [] {
      assert a + b == a;
    } else {
      var b' := b[..|b| - 1];
      assert (a + b)[..|a + b| - 1] == a + b';
      assert (a + b)[|a + b| - 1] == b[|b| - 1];
      StreamClaimsConcat(a, b', p);
    }
  }

  /** The claims up to and after mapping `j`. */
  lemma PortClaimsAt(pre: seq<Claim<int>>, ms: seq<StreamMapping>, name: string, j: nat)
    requires j < |ms|
    ensures var done := pre + PortClaims(ms[..j], name);
      && pre + PortClaims(ms[..j + 1], name) == done + [(ms[j].proxyPort, name)]
      && pre + PortClaims(ms, name) == done + [(ms[j].proxyPort, name)] + PortClaims(ms[j + 1..], name)
  {
    var x := (ms[j].proxyPort, name);
    assert PortClaims(ms[..j + 1], name) == PortClaims(ms[..j], name) + [x];
    assert PortClaims(ms, name) == PortClaims(ms[..j + 1], name) + PortClaims(ms[j + 1..], name);
  }

  /** One step of the port loop: claim the proxy port of mapping `j` of `ms`. */
  lemma PortStep(pre: seq<Claim<int>>, ms: seq<StreamMapping>, name: string, j: nat, ports: map<int, string>)
    requires j < |ms|
    requires ports == Holders(pre + PortClaims(ms[..j], name))
    requires FirstCollision(pre + PortClaims(ms[..j], name)).None?
    ensures var port := ms[j].proxyPort;
      port in ports ==> FirstCollision(pre + PortClaims(ms, name)) == Some(Collision(port, ports[port], name))
    ensures var port := ms[j].proxyPort;
      port !in ports ==>
        && ports[port := name] == Holders(pre + PortClaims(ms[..j + 1], name))
        && FirstCollision(pre + PortClaims(ms[..j + 1], name)).None?
  {
    var x := (ms[j].proxyPort, name);
    var done := pre + PortClaims(ms[..j], name);
    PortClaimsAt(pre, ms, name, j);
    ClaimStep(done, x, ports);
    if x.0 in ports {
      CollisionKept(done + [x], PortClaims(ms[j + 1..], name));
    }
  }

  /**
   * One container's mappings, claimed in order after the collision-free
   * claims `pre` whose record map is `ports`: the first collision, or the
   * record map after all of them.
   */
  method ClaimPorts(ghost pre: seq<Claim<int>>, ms: seq<StreamMapping>, name: string, ports: map<int, string>)
    returns (r: Option<Collision<int>>, ports': map<int, string>)
    requires ports == Holders(pre) && FirstCollision(pre).None?
    ensures r == FirstCollision(pre + PortClaims(ms, name))
    ensures r.None? ==> ports' == Holders(pre + PortClaims(ms, name))
  {
    ports' := ports;
    var j := 0;
    assert pre + PortClaims(ms[..j], name) == pre;
    while j < |ms|
      invariant 0 <= j <= |ms|
      invariant ports' == Holders(pre + PortClaims(ms[..j], name))
      invariant FirstCollision(pre + PortClaims(ms[..j], name)).None?
    {
      var port := ms[j].proxyPort;
      PortStep(pre, ms, name, j, ports');
      if port in ports' {
        return Some(Collision(port, ports'[port], name)), ports';
      }
      ports' := ports'[port := name];
      j := j + 1;
    }
    assert ms[..j] == ms;
    r := None;
  }

  /**
   * The port loops of validateConflicts (generator.go:179-188 and 191-200,
   * the same loop for `p` = TCP and `p` = UDP).
   */
  method CheckPorts(cs: seq<StreamContainer>, p: Protocol) returns (r: Option<Collision<int>>)
    ensures r == FirstCollision(StreamClaims(cs, p))
  {
    var ports: map<int, string> := map[];
    var i := 0;
    while i < |cs|
      invariant 0 <= i <= |cs|
      invariant ports == Holders(StreamClaims(cs[..i], p))
      invariant FirstCollision(StreamClaims(cs[..i], p)).None?
    {
      assert cs[..i + 1][..i] == cs[..i];
      var c := cs[i];
      r, ports := ClaimPorts(StreamClaims(cs[..i], p), MappingsOf(c, p), c.name, ports);
      if r.Some? {
        CollisionKept(StreamClaims(cs[..i + 1], p), StreamClaims(cs[i + 1..], p));
        StreamClaimsConcat(cs[..i + 1], cs[i + 1..], p);
        assert cs[..i + 1] + cs[i + 1..] == cs;
        return;
      }
      i := i + 1;
    }
    assert cs[..i] == cs;
    r := None;
  }

  /** The hostname loop of validateConflicts (generator.go:203-210). */
  method CheckHostnames(servers: seq<HTTPServer>) returns (r: Option<Collision<string>>)
    ensures r == FirstCollision(HostClaims(servers))
  {
    ghost var claims := HostClaims(servers);
    var hostnames: map<string, string> := map[];
    var i := 0;
    while i < |servers|
      invariant 0 <= i <= |servers|
      invariant hostnames == Holders(claims[..i])
      invariant FirstCollision(claims[..i]).None?
    {
      var s := servers[i];
      assert claims[..i + 1] == claims[..i] + [(s.hostname, s.containerName)];
      ClaimStep(claims[..i], (s.hostname, s.containerName), hostnames);
      if s.hostname in hostnames {
        CollisionKept(claims[..i + 1], claims[i + 1..]);
        assert claims[..i + 1] + claims[i + 1..] == claims;
        return Some(Collision(s.hostname, hostnames[s.hostname], s.containerName));
      }
      hostnames := hostnames[s.hostname := s.containerName];
      i := i + 1;
    }
    assert claims[..i] == claims;
    return None;
  }

  /** validateConflicts (generator.go:177-216). */
  method ValidateConflicts(sd: StreamData, hd: HTTPData) returns (err: Option<ConflictError>)
    ensures err == Conflicts(sd, hd)
  {
    var tcp := CheckPorts(sd.containers, TCP);
    if tcp.Some? {
      return Some(TCPPortConflict(tcp.value.key, tcp.value.existing, tcp.value.claimant));
    }
    var udp := CheckPorts(sd.containers, UDP);
    if udp.Some? {
      return Some(UDPPortConflict(udp.value.key, udp.value.existing, udp.value.claimant));
    }
    var host := CheckHostnames(hd.servers);
    if host.Some? {
      return Some(HostnameConflict(host.value.key, host.value.existing, host.value.claimant));
    }
    return None;
  }

  // Properties of the conflict check

  /** Every claimed key is recorded. */
  lemma {:induction false} HoldersCovers<K>(claims: seq<Claim<K>>)
    ensures forall k :: 0 <= k < |claims| ==> claims[k].0 in Holders(claims)
  {
    if |claims| > 0 {
      var init := claims[..|claims| - 1];
      HoldersCovers(init);
      forall k | 0 <= k < |claims|
        ensures claims[k].0 in Holders(claims)
      {
        if k < |init| {
          assert claims[k] == init[k];
        }
      }
    }
  }

  /**
   * Every recorded key was claimed, and it is recorded with the name of its
   * first claimant: `k` is the first claim of `key`.
   */
  lemma {:induction false} HoldersFirst<K>(claims: seq<Claim<K>>, key: K) returns (k: nat)
    requires key in Holders(claims)
    ensures k < |claims| && claims[k].0 == key && Holders(claims)[key] == claims[k].1
    ensures forall i :: 0 <= i < k ==> claims[i].0 != key
  {
    var init := claims[..|claims| - 1];
    if key in Holders(init) {
      k := HoldersFirst(init, key);
      assert claims[k] == init[k];
      forall i | 0 <= i < k
        ensures claims[i].0 != key
      {
        assert claims[i] == init[i];
      }
    } else {
      k := |claims| - 1;
      HoldersCovers(init);
      forall i | 0 <= i < k
        ensures claims[i].0 != key
      {
        assert claims[i] == init[i];
      }
    }
  }

  /** The check finds no collision exactly when no key is claimed twice. */
  lemma {:induction false} NoCollisionIff<K>(claims: seq<Claim<K>>)
    ensures FirstCollision(claims).None? ==> DistinctKeys(claims)
    ensures DistinctKeys(claims) ==> FirstCollision(claims).None?
  {
    if |claims| > 0 {
      var init := claims[..|claims| - 1];
      var last := claims[|claims| - 1];
      NoCollisionIff(init);
      if FirstCollision(claims).None? {
        assert DistinctKeys(init);
        assert last.0 !in Holders(init);
        HoldersCovers(init);
        forall i, j | 0 <= i < j < |claims|
          ensures claims[i].0 != claims[j].0
        {
          assert claims[i] == init[i];
          if j < |init| {
            assert claims[j] == init[j];
          }
        }
      }
      if DistinctKeys(claims) {
        assert DistinctKeys(init) by {
          forall i, j | 0 <= i < j < |init|
            ensures init[i].0 != init[j].0
          {
            assert init[i] == claims[i] && init[j] == claims[j];
          }
        }
        if last.0 in Holders(init) {
          var k := HoldersFirst(init, last.0);
          assert false;
        }
      }
    }
  }

  /**
   * A reported collision names a key claimed twice: `j` is the first claim
   * whose key was claimed before, `i` that key's first claim, the existing
   * name is the first claimant's and the claimant is claim `j`'s; nothing
   * before `j` collides.
   */
  lemma {:induction false} CollisionWitness<K>(claims: seq<Claim<K>>) returns (i: nat, j: nat)
    requires FirstCollision(claims).Some?
    ensures var c := FirstCollision(claims).value;
      && i < j < |claims|
      && claims[i] == (c.key, c.existing) && claims[j] == (c.key, c.claimant)
      && (forall h :: 0 <= h < i ==> claims[h].0 != c.key)
      && DistinctKeys(claims[..j])
  {
    var init := claims[..|claims| - 1];
    if FirstCollision(init).Some? {
      i, j := CollisionWitness(init);
      assert claims[i] == init[i] && claims[j] == init[j];
      assert claims[..j] == init[..j];
      forall h | 0 <= h < i
        ensures claims[h].0 != FirstCollision(claims).value.key
      {
        assert claims[h] == init[h];
      }
    } else {
      var last := claims[|claims| - 1];
      j := |claims| - 1;
      i := HoldersFirst(init, last.0);
      assert claims[i] == init[i];
      assert claims[..j] == init;
      NoCollisionIff(init);
      forall h | 0 <= h < i
        ensures claims[h].0 != last.0
      {
        assert claims[h] == init[h];
      }
    }
  }

  /** validateConflicts passes exactly when no TCP port, no UDP port and no hostname is claimed twice. */
  lemma ConflictsNoneIff(sd: StreamData, hd: HTTPData)
    ensures Conflicts(sd, hd).None? ==>
      && DistinctKeys(StreamClaims(sd.containers, TCP))
      && DistinctKeys(StreamClaims(sd.containers, UDP))
      && DistinctKeys(HostClaims(hd.servers))
    ensures
      && DistinctKeys(StreamClaims(sd.containers, TCP))
      && DistinctKeys(StreamClaims(sd.containers, UDP))
      && DistinctKeys(HostClaims(hd.servers))
      ==> Conflicts(sd, hd).None?
  {
    NoCollisionIff(StreamClaims(sd.containers, TCP));
    NoCollisionIff(StreamClaims(sd.containers, UDP));
    NoCollisionIff(HostClaims(hd.servers));
  }

  /** The checks run in order: a UDP conflict means the TCP ports were clean, a hostname conflict that both were. */
  lemma ConflictOrder(sd: StreamData, hd: HTTPData)
    ensures Conflicts(sd, hd).Some? && Conflicts(sd, hd).value.UDPPortConflict? ==>
      DistinctKeys(StreamClaims(sd.containers, TCP))
    ensures Conflicts(sd, hd).Some? && Conflicts(sd, hd).value.HostnameConflict? ==>
      DistinctKeys(StreamClaims(sd.containers, TCP)) && DistinctKeys(StreamClaims(sd.containers, UDP))
  {
    NoCollisionIff(StreamClaims(sd.containers, TCP));
    NoCollisionIff(StreamClaims(sd.containers, UDP));
  }

  /**
   * TCP and UDP are separate namespaces: one container proxying port 53 on
   * both passes, while the same port twice in one container's TCP list is a
   * conflict of the container with itself, and two containers on one port
   * are reported with the first as the existing holder.
   */
  lemma ConflictExamples(ip: string)
    ensures var m := StreamMapping(53, 53, ip);
      Conflicts(StreamData([StreamContainer("dns", "abc", [m], [m])]), HTTPData([])) == None
    ensures var m := StreamMapping(80, 8080, ip);
      Conflicts(StreamData([StreamContainer("web", "abc", [m, m], [])]), HTTPData([]))
        == Some(TCPPortConflict(80, "web", "web"))
    ensures var m := StreamMapping(80, 8080, ip);
      Conflicts(StreamData([StreamContainer("a", "1", [m], []), StreamContainer("b", "2", [m], [])]), HTTPData([]))
        == Some(TCPPortConflict(80, "a", "b"))
  {
    var m := StreamMapping(53, 53, ip);
    var one := [StreamContainer("dns", "abc", [m], [m])];
    assert one[..0] == [];
    assert StreamClaims(one, TCP) == [(53, "dns")];
    assert StreamClaims(one, UDP) == [(53, "dns")];
    var dns: seq<Claim<int>> := [(53, "dns")];
    assert dns[..0] == [];
    var w := StreamMapping(80, 8080, ip);
    var web := [StreamContainer("web", "abc", [w, w], [])];
    assert web[..0] == [];
    var twice: seq<Claim<int>> := [(80, "web"), (80, "web")];
    assert StreamClaims(web, TCP) == twice;
    assert twice[..1] == [(80, "web")] && twice[..1][..0] == [];
    var two := [StreamContainer("a", "1", [w], []), StreamContainer("b", "2", [w], [])];
    assert two[..1] == [two[0]] && two[..1][..0] == [];
    var ab: seq<Claim<int>> := [(80, "a"), (80, "b")];
    assert StreamClaims(two, TCP) == ab;
    assert ab[..1] == [(80, "a")] && ab[..1][..0] == [];
  }
}
