/** Route discovery (internal/loopback/discovery.go): published TCP ports of
    running containers, in canonical form. */
module Discovery {
  import opened Ordering
  import opened PortForward

  /** A parsed IP address; `text` is its canonical form. */
  datatype Address = Address(text: string, v4: bool, unspecified: bool)

  /** net.ParseIP after strings.TrimSpace. */
  type AddressReader = string -> Option<Address>

  datatype Binding = Binding(containerPort: Port, hostIP: string, hostPort: Port, protocol: string, published: bool)

  datatype Container = Container(id: string, name: string, running: bool, ports: seq<Binding>)

  datatype Publication = Publication(port: Port, target: string, sources: seq<string>, upstreams: seq<string>)

  /** Code and message of a UDP warning follow from port and source. */
  datatype Warning = UdpUnsupported(port: Port, source: string)

  datatype Desired = Desired(publications: seq<Publication>, warnings: seq<Warning>)

  function LowerChar(c: char): char
  {
    if 'A' <= c <= 'Z' then (c as int + 32) as char else c
  }

  function ToLower(text: string): string
  {
    if text == "" then "" else [LowerChar(text[0])] + ToLower(text[1..])
  }

  function Source(c: Container): string
  {
    var trimmed := if |c.name| > 0 && c.name[0] == '/' then c.name[1..] else c.name;
    if trimmed == "" then c.id else trimmed
  }

  function Upstream(read: AddressReader, hostIP: string, hostPort: Port): string
  {
    match read(hostIP)
    case None => ""
    case Some(address) =>
      var host := if !address.unspecified then address.text else if address.v4 then "127.0.0.1" else "::1";
      JoinHostPort(host, hostPort)
  }

  // ---- facts ----------------------------------------------------------------

  predicate Published(b: Binding) { b.published && b.hostPort != 0 }

  predicate Tcp(b: Binding) { Published(b) && ToLower(b.protocol) == "tcp" }

  predicate Udp(b: Binding) { Published(b) && ToLower(b.protocol) == "udp" }

  /** One published TCP port of one running container. */
  datatype Fact = Fact(port: Port, source: string, upstream: string)

  function FactOf(read: AddressReader, c: Container, b: Binding): Fact
  {
    Fact(b.hostPort, Source(c), Upstream(read, b.hostIP, b.hostPort))
  }

  function BindingFacts(read: AddressReader, c: Container, bs: seq<Binding>): set<Fact>
  {
    if bs == [] then {}
    else BindingFacts(read, c, bs[..|bs| - 1]) + (if Tcp(bs[|bs| - 1]) then {FactOf(read, c, bs[|bs| - 1])} else {})
  }

  function Facts(read: AddressReader, cs: seq<Container>): set<Fact>
  {
    if cs == [] then {}
    else
      var c := cs[|cs| - 1];
      Facts(read, cs[..|cs| - 1]) + (if c.running then BindingFacts(read, c, c.ports) else {})
  }

  function BindingWarnings(c: Container, bs: seq<Binding>): seq<Warning>
  {
    if bs == [] then []
    else BindingWarnings(c, bs[..|bs| - 1])
         + (if Udp(bs[|bs| - 1]) then [UdpUnsupported(bs[|bs| - 1].hostPort, Source(c))] else [])
  }

  function UdpWarnings(cs: seq<Container>): seq<Warning>
  {
    if cs == [] then []
    else
      var c := cs[|cs| - 1];
      UdpWarnings(cs[..|cs| - 1]) + (if c.running then BindingWarnings(c, c.ports) else [])
  }

  ghost function SourcesOf(facts: set<Fact>, port: Port): set<string>
  {
    set f | f in facts && f.port == port :: f.source
  }

  ghost function UpstreamsOf(facts: set<Fact>, port: Port): set<string>
  {
    set f | f in facts && f.port == port && f.upstream != "" :: f.upstream
  }

  /** A fact holds exactly when a running container publishes the port over
      TCP. */
  lemma FactsExact(read: AddressReader, cs: seq<Container>, f: Fact)
    ensures f in Facts(read, cs) <==>
            exists i, j | 0 <= i < |cs| && 0 <= j < |cs[i].ports| ::
              cs[i].running && Tcp(cs[i].ports[j]) && f == FactOf(read, cs[i], cs[i].ports[j])
  {
    if cs != [] {
      var n := |cs| - 1;
      FactsExact(read, cs[..n], f);
      BindingFactsExact(read, cs[n], cs[n].ports, f);
      if f in Facts(read, cs[..n]) {
        var i, j :| 0 <= i < n && 0 <= j < |cs[..n][i].ports|
                    && cs[..n][i].running && Tcp(cs[..n][i].ports[j]) && f == FactOf(read, cs[..n][i], cs[..n][i].ports[j]);
        assert cs[i] == cs[..n][i];
      }
      forall i, j | 0 <= i < |cs| && 0 <= j < |cs[i].ports| && cs[i].running && Tcp(cs[i].ports[j])
                    && f == FactOf(read, cs[i], cs[i].ports[j])
        ensures f in Facts(read, cs)
      {
        if i < n { assert cs[..n][i] == cs[i]; }
      }
    }
  }

  lemma {:induction false} BindingFactsExact(read: AddressReader, c: Container, bs: seq<Binding>, f: Fact)
    ensures f in BindingFacts(read, c, bs) <==> exists j | 0 <= j < |bs| :: Tcp(bs[j]) && f == FactOf(read, c, bs[j])
  {
    if bs != [] {
      var n := |bs| - 1;
      BindingFactsExact(read, c, bs[..n], f);
      forall j | 0 <= j < n ensures bs[j] == bs[..n][j] {}
    }
  }

  // ---- what discovery returns -----------------------------------------------

  predicate WarningLe(a: Warning, b: Warning)
  {
    if a.port != b.port then a.port < b.port else StringLe(a.source, b.source)
  }

  ghost predicate Lists(list: seq<string>, s: set<string>)
  {
    StrictlySorted(list) && forall x :: x in list <==> x in s
  }

  ghost predicate PublicationFits(facts: set<Fact>, p: Publication)
  {
    && p.target == "docker:" + Decimal(p.port)
    && Lists(p.sources, SourcesOf(facts, p.port))
    && Lists(p.upstreams, UpstreamsOf(facts, p.port))
  }

  ghost predicate HasPort(facts: set<Fact>, port: Port)
  {
    exists f | f in facts :: f.port == port
  }

  ghost predicate Routed(ps: seq<Publication>, port: Port)
  {
    exists i | 0 <= i < |ps| :: ps[i].port == port
  }

  /** One publication per published port, in strictly increasing order. */
  ghost predicate AreRoutes(facts: set<Fact>, ps: seq<Publication>)
  {
    && (forall i, j | 0 <= i < j < |ps| :: ps[i].port < ps[j].port)
    && (forall i | 0 <= i < |ps| :: PublicationFits(facts, ps[i]))
    && (forall port: Port :: HasPort(facts, port) <==> Routed(ps, port))
  }

  ghost predicate IsDiscovery(facts: set<Fact>, warnings: seq<Warning>, d: Desired)
  {
    AreRoutes(facts, d.publications) && SortOf(WarningLe, d.warnings, warnings)
  }

  /** The result is determined by the facts alone. */
  lemma Canonical(facts: set<Fact>, w1: seq<Warning>, w2: seq<Warning>, d1: Desired, d2: Desired)
    requires IsDiscovery(facts, w1, d1) && IsDiscovery(facts, w2, d2) && multiset(w1) == multiset(w2)
    ensures d1 == d2
  {
    hide AreRoutes;
    WarningsCanonical(w1, w2, d1.warnings, d2.warnings);
    RoutesCanonical(facts, d1.publications, d2.publications, |d1.publications|);
    RoutesCanonical(facts, d2.publications, d1.publications, |d2.publications|);
  }

  lemma WarningsCanonical(w1: seq<Warning>, w2: seq<Warning>, s1: seq<Warning>, s2: seq<Warning>)
    requires multiset(w1) == multiset(w2) && SortOf(WarningLe, s1, w1) && SortOf(WarningLe, s2, w2)
    ensures s1 == s2
  {
    var all := set w | w in s1;
    forall x, y | x in all && y in all && WarningLe(x, y) && WarningLe(y, x) ensures x == y {
      StringLeTotal(x.source, y.source);
    }
    SortedUnique(WarningLe, s1, s2, all);
  }

  lemma SamePublication(facts: set<Fact>, a: Publication, b: Publication)
    requires PublicationFits(facts, a) && PublicationFits(facts, b) && a.port == b.port
    ensures a == b
  {
    StrictlySortedUnique(a.sources, b.sources);
    StrictlySortedUnique(a.upstreams, b.upstreams);
  }

  /** Some route of the other list has the port. */
  lemma PortElsewhere(facts: set<Fact>, ps: seq<Publication>, qs: seq<Publication>, i: nat) returns (j: nat)
    requires AreRoutes(facts, ps) && AreRoutes(facts, qs) && i < |ps|
    ensures j < |qs| && qs[j].port == ps[i].port
  {
    hide HasPort, PublicationFits;
    assert Routed(ps, ps[i].port);
    assert Routed(qs, ps[i].port);
    j :| 0 <= j < |qs| && qs[j].port == ps[i].port;
  }

  /** The first n routes of one list start the other. */
  lemma {:induction false} RoutesCanonical(facts: set<Fact>, ps: seq<Publication>, qs: seq<Publication>, n: nat)
    requires AreRoutes(facts, ps) && AreRoutes(facts, qs) && n <= |ps|
    ensures n <= |qs| && ps[..n] == qs[..n]
  {
    hide PublicationFits, HasPort, Routed;
    if n != 0 {
      RoutesCanonical(facts, ps, qs, n - 1);
      assert forall i | 0 <= i < n - 1 :: ps[i] == ps[..n - 1][i] == qs[..n - 1][i] == qs[i];
      var j := PortElsewhere(facts, ps, qs, n - 1);
      assert j >= n - 1;
      var k := PortElsewhere(facts, qs, ps, n - 1);
      assert k >= n - 1;
      SamePublication(facts, ps[n - 1], qs[n - 1]);
      assert ps[..n] == ps[..n - 1] + [ps[n - 1]] && qs[..n] == qs[..n - 1] + [qs[n - 1]];
    }
  }

  // ---- what a discovery says of the bindings --------------------------------

  /** A published port of a running container, whose protocol reads TCP in any
      case. */
  ghost predicate PublishesTcp(cs: seq<Container>, i: nat, j: nat, port: Port)
  {
    && i < |cs| && cs[i].running && j < |cs[i].ports|
    && var b := cs[i].ports[j];
    && b.published && b.hostPort == port != 0
    && |b.protocol| == 3 && b.protocol[0] in "tT" && b.protocol[1] in "cC" && b.protocol[2] in "pP"
  }

  ghost predicate PublishesUdp(cs: seq<Container>, i: nat, j: nat, port: Port)
  {
    && i < |cs| && cs[i].running && j < |cs[i].ports|
    && var b := cs[i].ports[j];
    && b.published && b.hostPort == port != 0
    && |b.protocol| == 3 && b.protocol[0] in "uU" && b.protocol[1] in "dD" && b.protocol[2] in "pP"
  }

  /** The name of a container without the slash that Docker puts before it, or
      its ID when there is none. */
  ghost predicate IsSource(c: Container, source: string)
  {
    if c.name == "" || c.name == "/" then source == c.id
    else if c.name[0] == '/' then "/" + source == c.name
    else source == c.name
  }

  /** The host that reaches a bound address: loopback of the same family for an
      unspecified one, otherwise the address itself. */
  ghost predicate Dials(address: Address, host: string)
  {
    && (address.unspecified && address.v4 ==> host == "127.0.0.1")
    && (address.unspecified && !address.v4 ==> host == "::1")
    && (!address.unspecified ==> host == address.text)
  }

  /** Unreadable text has no upstream. */
  ghost predicate IsUpstream(read: AddressReader, b: Binding, upstream: string)
  {
    read(b.hostIP).Some? && exists host :: Dials(read(b.hostIP).value, host) && upstream == JoinHostPort(host, b.hostPort)
  }

  ghost predicate IsPublished(cs: seq<Container>, port: Port)
  {
    exists i: nat, j: nat :: PublishesTcp(cs, i, j, port)
  }

  ghost predicate SourceOf(cs: seq<Container>, port: Port, source: string)
  {
    exists i: nat, j: nat :: PublishesTcp(cs, i, j, port) && IsSource(cs[i], source)
  }

  ghost predicate UpstreamOf(read: AddressReader, cs: seq<Container>, port: Port, upstream: string)
  {
    exists i: nat, j: nat :: PublishesTcp(cs, i, j, port) && IsUpstream(read, cs[i].ports[j], upstream)
  }

  ghost predicate WarnedOf(cs: seq<Container>, w: Warning)
  {
    exists i: nat, j: nat :: PublishesUdp(cs, i, j, w.port) && IsSource(cs[i], w.source)
  }

  /** One route per published port, to that port of the Docker host, with the
      names and the upstreams of everything that publishes it. */
  ghost predicate RoutesSay(read: AddressReader, cs: seq<Container>, ps: seq<Publication>)
  {
    && (forall i, j | 0 <= i < j < |ps| :: ps[i].port < ps[j].port)
    && (forall port: Port :: Routed(ps, port) <==> IsPublished(cs, port))
    && (forall i | 0 <= i < |ps| :: RouteSays(read, cs, ps[i]))
  }

  ghost predicate RouteSays(read: AddressReader, cs: seq<Container>, p: Publication)
  {
    && p.target == "docker:" + Decimal(p.port)
    && StrictlySorted(p.sources) && (forall x :: x in p.sources <==> SourceOf(cs, p.port, x))
    && StrictlySorted(p.upstreams) && (forall x :: x in p.upstreams <==> UpstreamOf(read, cs, p.port, x))
  }

  /** UDP ports are warned of, by port and source. */
  ghost predicate WarningsSay(cs: seq<Container>, ws: seq<Warning>)
  {
    && (forall w :: w in ws <==> WarnedOf(cs, w))
    && (forall i, j | 0 <= i < j < |ws| ::
          ws[i].port < ws[j].port || (ws[i].port == ws[j].port && StringLe(ws[i].source, ws[j].source)))
  }

  lemma LowerOne(c: char, lower: char, upper: char)
    requires 'a' <= lower <= 'z' && upper as int == lower as int - 32
    ensures LowerChar(c) == lower <==> c == lower || c == upper
  {
  }

  lemma {:induction false} LowerAll(text: string)
    ensures |ToLower(text)| == |text| && forall i | 0 <= i < |text| :: ToLower(text)[i] == LowerChar(text[i])
  {
    hide LowerChar;
    if text != "" {
      LowerAll(text[1..]);
      assert forall i | 1 <= i < |text| :: ToLower(text)[i] == ToLower(text[1..])[i - 1] && text[i] == text[1..][i - 1];
    }
  }

  lemma LowerThree(text: string, word: string)
    requires |word| == 3
    ensures ToLower(text) == word <==>
            |text| == 3 && LowerChar(text[0]) == word[0] && LowerChar(text[1]) == word[1] && LowerChar(text[2]) == word[2]
  {
    hide LowerChar, ToLower;
    LowerAll(text);
    var lower := ToLower(text);
    if |text| == 3 && lower[0] == word[0] && lower[1] == word[1] && lower[2] == word[2] {
      assert lower == [lower[0], lower[1], lower[2]] && word == [word[0], word[1], word[2]];
    }
  }

  lemma ProtocolsSay(b: Binding)
    ensures Tcp(b) <==> b.published && b.hostPort != 0 && |b.protocol| == 3
                        && b.protocol[0] in "tT" && b.protocol[1] in "cC" && b.protocol[2] in "pP"
    ensures Udp(b) <==> b.published && b.hostPort != 0 && |b.protocol| == 3
                        && b.protocol[0] in "uU" && b.protocol[1] in "dD" && b.protocol[2] in "pP"
  {
    hide ToLower, LowerChar;
    LowerThree(b.protocol, "tcp");
    LowerThree(b.protocol, "udp");
    if |b.protocol| == 3 {
      LowerOne(b.protocol[0], 't', 'T');
      LowerOne(b.protocol[1], 'c', 'C');
      LowerOne(b.protocol[2], 'p', 'P');
      LowerOne(b.protocol[0], 'u', 'U');
      LowerOne(b.protocol[1], 'd', 'D');
    }
  }

  lemma SourceSays(c: Container, source: string)
    ensures IsSource(c, source) <==> source == Source(c)
  {
    if c.name != "" && c.name[0] == '/' {
      assert c.name == "/" + c.name[1..];
      assert "/" + source == c.name ==> source == c.name[1..];
    }
  }

  lemma UpstreamSays(read: AddressReader, b: Binding, upstream: string)
    ensures IsUpstream(read, b, upstream) <==> upstream != "" && upstream == Upstream(read, b.hostIP, b.hostPort)
  {
    if read(b.hostIP).Some? {
      var address := read(b.hostIP).value;
      var host := if !address.unspecified then address.text else if address.v4 then "127.0.0.1" else "::1";
      assert |JoinHostPort(host, b.hostPort)| > 0;
      assert Dials(address, host);
    }
  }

  lemma FactsSay(read: AddressReader, cs: seq<Container>, port: Port, x: string)
    ensures HasPort(Facts(read, cs), port) <==> IsPublished(cs, port)
    ensures x in SourcesOf(Facts(read, cs), port) <==> SourceOf(cs, port, x)
    ensures x in UpstreamsOf(Facts(read, cs), port) <==> UpstreamOf(read, cs, port, x)
  {
    hide Facts, Tcp, Source, Upstream, IsSource, IsUpstream;
    var facts := Facts(read, cs);
    forall f | f in facts && f.port == port
      ensures IsPublished(cs, port) && SourceOf(cs, port, f.source) && (f.upstream != "" ==> UpstreamOf(read, cs, port, f.upstream))
    {
      FactsExact(read, cs, f);
      var i, j :| 0 <= i < |cs| && 0 <= j < |cs[i].ports|
                  && cs[i].running && Tcp(cs[i].ports[j]) && f == FactOf(read, cs[i], cs[i].ports[j]);
      FactSays(read, cs, i, j, port);
    }
    forall i: nat, j: nat | PublishesTcp(cs, i, j, port)
      ensures FactOf(read, cs[i], cs[i].ports[j]) in facts && FactOf(read, cs[i], cs[i].ports[j]).port == port
      ensures IsSource(cs[i], x) ==> x in SourcesOf(facts, port)
      ensures IsUpstream(read, cs[i].ports[j], x) ==> x in UpstreamsOf(facts, port)
    {
      var f := FactOf(read, cs[i], cs[i].ports[j]);
      ProtocolsSay(cs[i].ports[j]);
      FactsExact(read, cs, f);
      SourceSays(cs[i], x);
      UpstreamSays(read, cs[i].ports[j], x);
    }
  }

  lemma FactSays(read: AddressReader, cs: seq<Container>, i: nat, j: nat, port: Port)
    requires i < |cs| && j < |cs[i].ports| && cs[i].running && Tcp(cs[i].ports[j]) && cs[i].ports[j].hostPort == port
    ensures var f := FactOf(read, cs[i], cs[i].ports[j]);
            && IsPublished(cs, port) && SourceOf(cs, port, f.source)
            && (f.upstream != "" ==> UpstreamOf(read, cs, port, f.upstream))
  {
    hide Tcp, Source, Upstream, IsSource, IsUpstream;
    var f := FactOf(read, cs[i], cs[i].ports[j]);
    ProtocolsSay(cs[i].ports[j]);
    SourceSays(cs[i], f.source);
    UpstreamSays(read, cs[i].ports[j], f.upstream);
    assert PublishesTcp(cs, i, j, port);
  }

  lemma {:induction false} WarningsExact(cs: seq<Container>, w: Warning)
    ensures w in UdpWarnings(cs) <==>
            exists i, j | 0 <= i < |cs| && 0 <= j < |cs[i].ports| ::
              cs[i].running && Udp(cs[i].ports[j]) && w == UdpUnsupported(cs[i].ports[j].hostPort, Source(cs[i]))
  {
    hide Udp, Source;
    if cs != [] {
      var n := |cs| - 1;
      WarningsExact(cs[..n], w);
      BindingWarningsExact(cs[n], cs[n].ports, w);
      if w in UdpWarnings(cs[..n]) {
        var i, j :| 0 <= i < n && 0 <= j < |cs[..n][i].ports| && cs[..n][i].running && Udp(cs[..n][i].ports[j])
                    && w == UdpUnsupported(cs[..n][i].ports[j].hostPort, Source(cs[..n][i]));
        assert cs[i] == cs[..n][i];
      }
      forall i, j | 0 <= i < |cs| && 0 <= j < |cs[i].ports| && cs[i].running && Udp(cs[i].ports[j])
                    && w == UdpUnsupported(cs[i].ports[j].hostPort, Source(cs[i]))
        ensures w in UdpWarnings(cs)
      {
        if i < n { assert cs[..n][i] == cs[i]; }
      }
    }
  }

  lemma {:induction false} BindingWarningsExact(c: Container, bs: seq<Binding>, w: Warning)
    ensures w in BindingWarnings(c, bs) <==>
            exists j | 0 <= j < |bs| :: Udp(bs[j]) && w == UdpUnsupported(bs[j].hostPort, Source(c))
  {
    hide Udp, Source;
    if bs != [] {
      var n := |bs| - 1;
      BindingWarningsExact(c, bs[..n], w);
      forall j | 0 <= j < n ensures bs[j] == bs[..n][j] {}
    }
  }

  lemma WarningSays(cs: seq<Container>, w: Warning)
    ensures w in UdpWarnings(cs) <==> WarnedOf(cs, w)
  {
    hide UdpWarnings, Udp, Source, IsSource;
    WarningsExact(cs, w);
    forall i, j | 0 <= i < |cs| && 0 <= j < |cs[i].ports| && cs[i].running && cs[i].ports[j].hostPort == w.port
      ensures PublishesUdp(cs, i, j, w.port) <==> Udp(cs[i].ports[j])
      ensures IsSource(cs[i], w.source) <==> w.source == Source(cs[i])
    {
      ProtocolsSay(cs[i].ports[j]);
      SourceSays(cs[i], w.source);
    }
  }

  /** What Discover returns, in terms of the bindings alone. */
  lemma DiscoverySays(read: AddressReader, cs: seq<Container>, d: Desired)
    requires IsDiscovery(Facts(read, cs), UdpWarnings(cs), d)
    ensures RoutesSay(read, cs, d.publications) && WarningsSay(cs, d.warnings)
  {
    hide Facts, UdpWarnings, HasPort, SourcesOf, UpstreamsOf, IsPublished, SourceOf, UpstreamOf, WarnedOf, StrictlySorted, Routed;
    var facts, ps := Facts(read, cs), d.publications;
    forall port: Port, x: string
      ensures HasPort(facts, port) <==> IsPublished(cs, port)
      ensures x in SourcesOf(facts, port) <==> SourceOf(cs, port, x)
      ensures x in UpstreamsOf(facts, port) <==> UpstreamOf(read, cs, port, x)
    {
      FactsSay(read, cs, port, x);
    }
    forall port: Port ensures Routed(ps, port) <==> IsPublished(cs, port) {
      FactsSay(read, cs, port, "");
    }
    forall i | 0 <= i < |ps| ensures RouteSays(read, cs, ps[i]) {
      assert PublicationFits(facts, ps[i]);
    }
    forall w ensures w in d.warnings <==> WarnedOf(cs, w) {
      WarningSays(cs, w);
      assert w in d.warnings <==> w in multiset(d.warnings);
      assert w in UdpWarnings(cs) <==> w in multiset(UdpWarnings(cs));
    }
    forall i, j | 0 <= i < j < |d.warnings| ensures WarningLe(d.warnings[i], d.warnings[j]) {}
  }

  // ---- permutations ---------------------------------------------------------

  /** A container up to the order of its bindings. */
  datatype Loose = Loose(id: string, name: string, running: bool, ports: multiset<Binding>)

  ghost function LooseOf(c: Container): Loose { Loose(c.id, c.name, c.running, multiset(c.ports)) }

  ghost function LooseAll(cs: seq<Container>): seq<Loose>
  {
    seq(|cs|, i requires 0 <= i < |cs| => LooseOf(cs[i]))
  }

  /** The same containers with the same bindings, in any order. */
  ghost predicate Shuffled(a: seq<Container>, b: seq<Container>)
  {
    multiset(LooseAll(a)) == multiset(LooseAll(b))
  }

  lemma ShuffledKeepsFacts(read: AddressReader, a: seq<Container>, b: seq<Container>)
    requires Shuffled(a, b)
    ensures Facts(read, a) == Facts(read, b)
  {
    forall f ensures f in Facts(read, a) <==> f in Facts(read, b) {
      FactsExact(read, a, f);
      FactsExact(read, b, f);
      if f in Facts(read, a) { FactMoves(read, a, b, f); }
      if f in Facts(read, b) { FactMoves(read, b, a, f); }
    }
  }

  lemma FactMoves(read: AddressReader, a: seq<Container>, b: seq<Container>, f: Fact)
    requires Shuffled(a, b) && f in Facts(read, a)
    ensures f in Facts(read, b)
  {
    FactsExact(read, a, f);
    FactsExact(read, b, f);
    var i, j :| 0 <= i < |a| && 0 <= j < |a[i].ports| && a[i].running && Tcp(a[i].ports[j]) && f == FactOf(read, a[i], a[i].ports[j]);
    assert LooseAll(a)[i] in multiset(LooseAll(b));
    var k :| 0 <= k < |b| && LooseAll(b)[k] == LooseAll(a)[i];
    assert a[i].ports[j] in multiset(b[k].ports);
    var l :| 0 <= l < |b[k].ports| && b[k].ports[l] == a[i].ports[j];
  }

  function Without<T>(s: seq<T>, i: nat): seq<T>
    requires i < |s|
  {
    s[..i] + s[i + 1..]
  }

  lemma {:induction false} BindingWarningsConcat(c: Container, a: seq<Binding>, b: seq<Binding>)
    ensures BindingWarnings(c, a + b) == BindingWarnings(c, a) + BindingWarnings(c, b)
    decreases |b|
  {
    if b == [] {
      assert a + b == a;
    } else {
      var n := |b| - 1;
      assert (a + b)[..|a + b| - 1] == a + b[..n];
      BindingWarningsConcat(c, a, b[..n]);
    }
  }

  lemma BindingWarningsSplit(c: Container, bs: seq<Binding>, i: nat)
    requires i < |bs|
    ensures multiset(BindingWarnings(c, bs)) ==
            multiset(BindingWarnings(c, Without(bs, i))) + multiset(BindingWarnings(c, [bs[i]]))
  {
    hide BindingWarnings;
    assert bs == bs[..i] + [bs[i]] + bs[i + 1..];
    BindingWarningsConcat(c, bs[..i] + [bs[i]], bs[i + 1..]);
    BindingWarningsConcat(c, bs[..i], [bs[i]]);
    BindingWarningsConcat(c, bs[..i], bs[i + 1..]);
  }

  lemma {:induction false} BindingWarningsShuffled(c: Container, a: seq<Binding>, b: seq<Binding>)
    requires multiset(a) == multiset(b)
    ensures multiset(BindingWarnings(c, a)) == multiset(BindingWarnings(c, b))
    decreases |a|
  {
    SameLength(a, b);
    if a != [] {
      var n := |a| - 1;
      assert a[n] in multiset(b);
      var i :| 0 <= i < |b| && b[i] == a[n];
      BindingWarningsSplit(c, a, n);
      BindingWarningsSplit(c, b, i);
      assert Without(a, n) == a[..n];
      WithoutMultiset(a, n);
      WithoutMultiset(b, i);
      BindingWarningsShuffled(c, Without(a, n), Without(b, i));
    }
  }

  lemma WithoutMultiset<T>(s: seq<T>, i: nat)
    requires i < |s|
    ensures multiset(Without(s, i)) == multiset(s) - multiset{s[i]}
  {
    assert s == s[..i] + [s[i]] + s[i + 1..];
  }

  lemma {:induction false} UdpConcat(a: seq<Container>, b: seq<Container>)
    ensures UdpWarnings(a + b) == UdpWarnings(a) + UdpWarnings(b)
    decreases |b|
  {
    if b == [] {
      assert a + b == a;
    } else {
      var n := |b| - 1;
      assert (a + b)[..|a + b| - 1] == a + b[..n];
      UdpConcat(a, b[..n]);
    }
  }

  lemma UdpSplit(cs: seq<Container>, i: nat)
    requires i < |cs|
    ensures multiset(UdpWarnings(cs)) == multiset(UdpWarnings(Without(cs, i))) + multiset(UdpWarnings([cs[i]]))
  {
    hide UdpWarnings;
    assert cs == cs[..i] + [cs[i]] + cs[i + 1..];
    UdpConcat(cs[..i] + [cs[i]], cs[i + 1..]);
    UdpConcat(cs[..i], [cs[i]]);
    UdpConcat(cs[..i], cs[i + 1..]);
  }

  lemma SameContainerWarnings(c: Container, d: Container)
    requires LooseOf(c) == LooseOf(d)
    ensures multiset(UdpWarnings([c])) == multiset(UdpWarnings([d]))
  {
    SingleWarnings(c);
    SingleWarnings(d);
    BindingWarningsShuffled(c, c.ports, d.ports);
    SameSourceWarnings(c, d, d.ports);
  }

  lemma {:induction false} ShuffledKeepsWarnings(a: seq<Container>, b: seq<Container>)
    requires Shuffled(a, b)
    ensures multiset(UdpWarnings(a)) == multiset(UdpWarnings(b))
    decreases |a|
  {
    hide UdpWarnings, Without;
    SameLength(LooseAll(a), LooseAll(b));
    if a != [] {
      var n := |a| - 1;
      assert LooseAll(a)[n] in multiset(LooseAll(b));
      var i :| 0 <= i < |b| && LooseAll(b)[i] == LooseAll(a)[n];
      UdpSplit(a, n);
      UdpSplit(b, i);
      LooseWithout(a, n);
      LooseWithout(b, i);
      WithoutMultiset(LooseAll(a), n);
      WithoutMultiset(LooseAll(b), i);
      ShuffledKeepsWarnings(Without(a, n), Without(b, i));
      SameContainerWarnings(a[n], b[i]);
    }
  }

  lemma LooseWithout(cs: seq<Container>, i: nat)
    requires i < |cs|
    ensures LooseAll(Without(cs, i)) == Without(LooseAll(cs), i) && |Without(cs, i)| < |cs|
  {
  }

  lemma SingleWarnings(c: Container)
    ensures UdpWarnings([c]) == if c.running then BindingWarnings(c, c.ports) else []
  {
    assert [c][..0] == [];
  }

  lemma {:induction false} SameSourceWarnings(c: Container, d: Container, bs: seq<Binding>)
    requires c.id == d.id && c.name == d.name
    ensures BindingWarnings(c, bs) == BindingWarnings(d, bs)
    decreases |bs|
  {
    if bs != [] { SameSourceWarnings(c, d, bs[..|bs| - 1]); }
  }

  /** Reordering containers, or the bindings of a container, never changes
      what is discovered. */
  lemma DiscoverIgnoresOrder(read: AddressReader, a: seq<Container>, b: seq<Container>, d1: Desired, d2: Desired)
    requires Shuffled(a, b)
    requires IsDiscovery(Facts(read, a), UdpWarnings(a), d1) && IsDiscovery(Facts(read, b), UdpWarnings(b), d2)
    ensures d1 == d2
  {
    ShuffledKeepsFacts(read, a, b);
    ShuffledKeepsWarnings(a, b);
    Canonical(Facts(read, a), UdpWarnings(a), UdpWarnings(b), d1, d2);
  }

  // ---- the loops ------------------------------------------------------------

  type Grouped = map<Port, set<string>>

  function Grow(m: Grouped, port: Port, text: string): Grouped
  {
    m[port := (if port in m then m[port] else {}) + {text}]
  }

  /** The two maps of the loops say what the facts say. */
  ghost predicate Reflects(sources: Grouped, upstreams: Grouped, facts: set<Fact>)
  {
    && (forall port: Port :: port in sources <==> HasPort(facts, port))
    && (forall port: Port | port in sources :: sources[port] == SourcesOf(facts, port))
    && (forall port: Port :: (if port in upstreams then upstreams[port] else {}) == UpstreamsOf(facts, port))
  }

  ghost predicate ReflectsAt(sources: Grouped, upstreams: Grouped, facts: set<Fact>, port: Port)
  {
    && (port in sources <==> HasPort(facts, port))
    && (port in sources ==> sources[port] == SourcesOf(facts, port))
    && (if port in upstreams then upstreams[port] else {}) == UpstreamsOf(facts, port)
  }

  lemma ReflectsNext(sources: Grouped, upstreams: Grouped, facts: set<Fact>, f: Fact)
    requires Reflects(sources, upstreams, facts)
    ensures Reflects(Grow(sources, f.port, f.source),
                     if f.upstream == "" then upstreams else Grow(upstreams, f.port, f.upstream), facts + {f})
  {
    hide HasPort, SourcesOf, UpstreamsOf, Grow;
    var s := Grow(sources, f.port, f.source);
    var u := if f.upstream == "" then upstreams else Grow(upstreams, f.port, f.upstream);
    forall port: Port ensures ReflectsAt(s, u, facts + {f}, port) {
      assert ReflectsAt(sources, upstreams, facts, port);
      ReflectsNextAt(sources, upstreams, facts, f, port);
    }
    ReflectsEverywhere(s, u, facts + {f});
  }

  lemma ReflectsEverywhere(sources: Grouped, upstreams: Grouped, facts: set<Fact>)
    requires forall port: Port :: ReflectsAt(sources, upstreams, facts, port)
    ensures Reflects(sources, upstreams, facts)
  {
    hide HasPort, SourcesOf, UpstreamsOf;
    forall port: Port
      ensures port in sources <==> HasPort(facts, port)
      ensures port in sources ==> sources[port] == SourcesOf(facts, port)
      ensures (if port in upstreams then upstreams[port] else {}) == UpstreamsOf(facts, port)
    {
      assert ReflectsAt(sources, upstreams, facts, port);
    }
  }

  lemma ReflectsNextAt(sources: Grouped, upstreams: Grouped, facts: set<Fact>, f: Fact, port: Port)
    requires ReflectsAt(sources, upstreams, facts, port)
    ensures ReflectsAt(Grow(sources, f.port, f.source),
                       if f.upstream == "" then upstreams else Grow(upstreams, f.port, f.upstream), facts + {f}, port)
  {
    hide HasPort, SourcesOf, UpstreamsOf;
    GrownFacts(facts, f, port);
    NoPortNoSources(facts, port);
  }

  lemma NoPortNoSources(facts: set<Fact>, port: Port)
    ensures !HasPort(facts, port) ==> SourcesOf(facts, port) == {}
  {
  }

  lemma GrownFacts(facts: set<Fact>, f: Fact, port: Port)
    ensures HasPort(facts + {f}, port) <==> HasPort(facts, port) || port == f.port
    ensures SourcesOf(facts + {f}, port) == SourcesOf(facts, port) + (if port == f.port then {f.source} else {})
    ensures UpstreamsOf(facts + {f}, port) ==
            UpstreamsOf(facts, port) + (if port == f.port && f.upstream != "" then {f.upstream} else {})
  {
    assert f in facts + {f};
    assert HasPort(facts, port) ==> HasPort(facts + {f}, port);
  }

  /** The inner loop, over the bindings of one running container. */
  method Collect(read: AddressReader, c: Container, sources: Grouped, upstreams: Grouped, warnings: seq<Warning>,
                 ghost facts: set<Fact>)
    returns (s: Grouped, u: Grouped, w: seq<Warning>)
    requires Reflects(sources, upstreams, facts)
    ensures Reflects(s, u, facts + BindingFacts(read, c, c.ports))
    ensures w == warnings + BindingWarnings(c, c.ports)
  {
    hide Reflects, ToLower, Upstream, Grow;
    s, u, w := sources, upstreams, warnings;
    var source := Source(c);
    ghost var seen := facts;
    for k := 0 to |c.ports|
      invariant Reflects(s, u, seen) && seen == facts + BindingFacts(read, c, c.ports[..k])
      invariant w == warnings + BindingWarnings(c, c.ports[..k])
    {
      var b := c.ports[k];
      assert c.ports[..k + 1][..k] == c.ports[..k];
      if !b.published || b.hostPort == 0 {
        continue;
      }
      var protocol := ToLower(b.protocol);
      if protocol == "tcp" {
        var upstream := Upstream(read, b.hostIP, b.hostPort);
        ReflectsNext(s, u, seen, Fact(b.hostPort, source, upstream));
        seen := seen + {Fact(b.hostPort, source, upstream)};
        s := Grow(s, b.hostPort, source);
        if upstream != "" {
          u := Grow(u, b.hostPort, upstream);
        }
      } else if protocol == "udp" {
        w := w + [UdpUnsupported(b.hostPort, source)];
      }
    }
    assert c.ports[..|c.ports|] == c.ports;
  }

  method Discover(read: AddressReader, cs: seq<Container>) returns (d: Desired)
    ensures IsDiscovery(Facts(read, cs), UdpWarnings(cs), d)
    ensures RoutesSay(read, cs, d.publications) && WarningsSay(cs, d.warnings)
  {
    var sources: Grouped, upstreams: Grouped, warnings := map[], map[], [];
    for k := 0 to |cs|
      invariant Reflects(sources, upstreams, Facts(read, cs[..k]))
      invariant warnings == UdpWarnings(cs[..k])
    {
      hide Reflects, BindingFacts, BindingWarnings;
      assert cs[..k + 1][..k] == cs[..k];
      if cs[k].running {
        sources, upstreams, warnings := Collect(read, cs[k], sources, upstreams, warnings, Facts(read, cs[..k]));
      }
    }
    assert cs[..|cs|] == cs;
    var publications := Publications(sources, upstreams, Facts(read, cs));
    WarningsSort(warnings);
    d := Desired(publications, Sort(WarningLe, warnings));
    DiscoverySays(read, cs, d);
    hide *;
  }

  lemma WarningsSort(warnings: seq<Warning>)
    ensures SortOf(WarningLe, Sort(WarningLe, warnings), warnings)
  {
    var all := set w | w in warnings;
    forall x, y | x in all && y in all ensures WarningLe(x, y) || WarningLe(y, x) { StringLeTotal(x.source, y.source); }
    forall x, y, z | x in all && y in all && z in all && WarningLe(x, y) && WarningLe(y, z) ensures WarningLe(x, z) {
      if x.port == y.port == z.port { StringLeTransitive(x.source, y.source, z.source); }
    }
    SortSorted(WarningLe, warnings, all);
  }

  /** The loop that turns the maps into sorted publications. */
  method Publications(sources: Grouped, upstreams: Grouped, ghost facts: set<Fact>) returns (r: seq<Publication>)
    requires Reflects(sources, upstreams, facts)
    ensures AreRoutes(facts, r)
  {
    var ports := SortedInts(set port | port in sources.Keys :: port as int);
    r := [];
    for k := 0 to |ports|
      invariant |r| == k && forall i | 0 <= i < k :: r[i].port as int == ports[i] && PublicationFits(facts, r[i])
    {
      assert ports[k] in ports;
      var port := ports[k] as Port;
      var sourceList := SortedStrings(sources[port]);
      var upstreamList: seq<string> := [];
      if port in upstreams {
        upstreamList := SortedStrings(upstreams[port]);
      } else {
        assert UpstreamsOf(facts, port) == {};
      }
      r := r + [Publication(port, "docker:" + Decimal(port), sourceList, upstreamList)];
    }
    forall port: Port ensures HasPort(facts, port) <==> Routed(r, port) {
      if HasPort(facts, port) {
        assert port as int in ports;
        var i :| 0 <= i < |ports| && ports[i] == port as int;
        assert r[i].port == port;
      }
      if Routed(r, port) {
        var i :| 0 <= i < |r| && r[i].port == port;
        assert ports[i] in ports;
      }
    }
  }
}
