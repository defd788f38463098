/** Exactly when a route is written, read from the blocks and their directives. */
module NginxChoice {
  import opened Wrappers
  import opened NginxLexer
  import opened NginxBlocks
  import opened NginxRoute

  /** A value of a `listen` directive that makes the server speak TLS. */
  predicate IsTls(value: string) { value == "ssl" || value == "443" || (|value| >= 4 && value[|value| - 4..] == ":443") }

  /** A server block that names the domain and listens with TLS. */
  predicate Serves(b: Block, domain: string) {
    && b.header == ["server"]
    && (exists d :: d in b.directives && d != [] && d[0] == "server_name" && domain in d[1..])
    && (exists d :: d in b.directives && d != [] && d[0] == "listen" && exists value :: value in d[1..] && IsTls(value))
  }

  lemma {:induction false} NamesAre(directives: seq<seq<string>>, domain: string)
    ensures domain in NamesIn(directives) <==> exists d :: d in directives && d != [] && d[0] == "server_name" && domain in d[1..]
  {
    if directives != [] {
      NamesAre(directives[1..], domain);
      assert directives == [directives[0]] + directives[1..];
      var here := if directives[0] != [] && directives[0][0] == "server_name" then directives[0][1..] else [];
      assert domain in NamesIn(directives) <==> domain in here || domain in NamesIn(directives[1..]);
    }
  }

  lemma TlsIs(value: string)
    ensures IsTls(value) <==> value == "ssl" || value == "443" || EndsWith(value, ":443")
  {}

  lemma SecureIs(listen: seq<string>)
    ensures Secure(listen) <==> exists value :: value in listen && IsTls(value)
  {
    hide IsTls, EndsWith;
    forall value: string ensures IsTls(value) <==> value == "ssl" || value == "443" || EndsWith(value, ":443") { TlsIs(value); }
    if "ssl" in listen { assert IsTls("ssl"); }
    if value :| value in listen && (value == "443" || EndsWith(value, ":443")) { assert IsTls(value); }
    if value :| value in listen && IsTls(value) && value != "ssl" { assert value in listen && (value == "443" || EndsWith(value, ":443")); }
  }

  lemma ServesIs(b: Block, domain: string)
    ensures IsHttpsServer(b, domain) <==> Serves(b, domain)
  {
    hide Secure, IsTls;
    NamesAre(b.directives, domain);
    forall d | d in b.directives && d != [] ensures Secure(d[1..]) <==> exists value :: value in d[1..] && IsTls(value) { SecureIs(d[1..]); }
  }

  /** Block `v` is the one server for the domain. */
  predicate OnlyServes(found: seq<Block>, domain: string, v: nat) {
    v < |found| && Serves(found[v], domain) && forall i :: 0 <= i < |found| && Serves(found[i], domain) ==> i == v
  }

  /** Block `i` is an exact `/ws` location directly in block `v`. */
  predicate IsRouteOf(found: seq<Block>, v: nat, i: nat) {
    i < |found| && found[i].parent == Some(v) && found[i].header == ["location", "=", "/ws"]
  }

  ghost predicate NoRoute(found: seq<Block>, v: nat) { forall i: nat :: !IsRouteOf(found, v, i) }

  ghost predicate OnlyRouteOf(found: seq<Block>, v: nat, x: nat) {
    IsRouteOf(found, v, x) && forall i: nat :: IsRouteOf(found, v, i) ==> i == x
  }

  /** The server has no such route, or just one, which the installer wrote. */
  ghost predicate Placeable(text: string, found: seq<Block>, v: nat) {
    NoRoute(found, v) ||
    exists x: nat :: OnlyRouteOf(found, v, x) && 0 <= found[x].start <= found[x].end <= |text|
                     && Contains(text[found[x].start..found[x].end], MARKER)
  }

  lemma ServersAre(found: seq<Block>, domain: string)
    ensures forall v: nat :: HttpsServers(found, domain) == [v] <==> OnlyServes(found, domain, v)
    ensures |HttpsServers(found, domain)| == 1 <==> exists v: nat :: OnlyServes(found, domain, v)
  {
    hide IsHttpsServer, Serves, HttpsServers;
    forall i | 0 <= i < |found| ensures IsHttpsServer(found[i], domain) <==> Serves(found[i], domain) { ServesIs(found[i], domain); }
    forall v: nat ensures HttpsServers(found, domain) == [v] <==> OnlyServes(found, domain, v) { OnlyServer(found, domain, v); }
    var r := HttpsServers(found, domain);
    if |r| == 1 { assert r == [r[0]]; }
  }

  lemma RoutesAre(found: seq<Block>, n: nat, v: nat)
    requires WellNested(found, n) && v < |found|
    ensures ExactRoutes(found, v) == [] <==> NoRoute(found, v)
    ensures forall x: nat :: ExactRoutes(found, v) == [x] <==> OnlyRouteOf(found, v, x)
  {
    hide IsExactRoute, WellNested, IsRouteOf;
    forall i: nat ensures IsExactRoute(found, v, i) <==> IsRouteOf(found, v, i) { SameRoute(found, n, v, i); }
    var r := ExactRoutes(found, v);
    assert forall i: nat :: i in r <==> i < |found| && IsExactRoute(found, v, i);
    assert forall i: nat :: IsRouteOf(found, v, i) ==> i < |found| by { RoutesAreBlocks(found, v); }
    if r != [] { assert r[0] in r; }
    forall x: nat ensures r == [x] <==> OnlyRouteOf(found, v, x) {
      OnlyOne(|found|, (i: nat) => IsExactRoute(found, v, i), x);
    }
  }

  lemma RoutesAreBlocks(found: seq<Block>, v: nat)
    ensures forall i: nat :: IsRouteOf(found, v, i) ==> i < |found|
  {}

  lemma SameRoute(found: seq<Block>, n: nat, v: nat, i: nat)
    requires WellNested(found, n) && v < |found|
    ensures IsExactRoute(found, v, i) <==> IsRouteOf(found, v, i)
  {
    hide WellNested;
    ExactRouteIs(found, n, v, i);
  }

  /**
   * A route is written exactly when the text parses, one block serves the domain over TLS, and that server has no
   * exact `/ws` location or a single one that carries the marker.
   */
  lemma RendersIff(text: string, domain: string, route: string)
    ensures RenderRoute(text, domain, route).Some? <==>
              && BlocksOf(text).Some?
              && exists v: nat :: OnlyServes(BlocksOf(text).value, domain, v) && Placeable(text, BlocksOf(text).value, v)
  {
    hide BlocksOf, OnlyServes, HttpsServers, ExactRoutes, WellNested, Contains, NoRoute, OnlyRouteOf, Spanned;
    if BlocksOf(text).Some? {
      var found := BlocksOf(text).value;
      BlocksAreWellNested(text);
      ServersAre(found, domain);
      var servers := HttpsServers(found, domain);
      if |servers| == 1 {
        var v := servers[0];
        assert servers == [v];
        InRange(found, domain, v);
        RoutesAre(found, |text|, v);
        RendersHere(text, found, domain, route, v);
        forall u: nat | OnlyServes(found, domain, u) ensures u == v { assert servers == [u]; }
      }
    }
  }

  lemma InRange(found: seq<Block>, domain: string, v: nat)
    requires HttpsServers(found, domain) == [v]
    ensures v < |found|
  {
    hide IsHttpsServer;
    assert v in HttpsServers(found, domain);
  }

  lemma RendersHere(text: string, found: seq<Block>, domain: string, route: string, v: nat)
    requires BlocksOf(text) == Some(found) && HttpsServers(found, domain) == [v] && v < |found|
    requires ExactRoutes(found, v) == [] <==> NoRoute(found, v)
    requires forall x: nat :: ExactRoutes(found, v) == [x] <==> OnlyRouteOf(found, v, x)
    ensures RenderRoute(text, domain, route).Some? <==> Placeable(text, found, v)
  {
    hide BlocksOf, HttpsServers, ExactRoutes, Contains, OnlyRouteOf, NoRoute, Inserted;
    var exact := ExactRoutes(found, v);
    BlocksAreWellNested(text);
    if |exact| == 1 {
      assert exact == [exact[0]];
      IndexIs(found, v, exact[0]);
      assert Spanned(found[exact[0]], |text|);
    }
    forall x: nat | OnlyRouteOf(found, v, x) ensures exact == [x] {}
  }

  lemma IndexIs(found: seq<Block>, v: nat, x: nat)
    requires ExactRoutes(found, v) == [x]
    ensures x < |found|
  {
    hide IsExactRoute;
    assert x in ExactRoutes(found, v);
  }

  lemma SpannedAt(text: string, x: nat)
    requires BlocksOf(text).Some? && x < |BlocksOf(text).value|
    ensures var b := BlocksOf(text).value[x]; 0 <= b.start <= b.end <= |text| && 0 <= b.closing <= |text|
  {
    hide BlocksOf;
    BlocksAreWellNested(text);
    assert Spanned(BlocksOf(text).value[x], |text|);
  }

  /** A first route goes before the closing brace of its server. */
  lemma FirstRouteIsInserted(text: string, domain: string, route: string, v: nat)
    requires BlocksOf(text).Some? && OnlyServes(BlocksOf(text).value, domain, v) && NoRoute(BlocksOf(text).value, v)
    ensures var at := BlocksOf(text).value[v].closing;
            0 <= at <= |text| && RenderRoute(text, domain, route) == Some(text[..at] + "\n    " + route + "\n" + text[at..])
  {
    hide BlocksOf, HttpsServers, ExactRoutes, WellNested, Contains, NoRoute, OnlyRouteOf, Serves;
    var found := BlocksOf(text).value;
    BlocksAreWellNested(text);
    ServersAre(found, domain);
    RoutesAre(found, |text|, v);
    SpannedAt(text, v);
  }

  /** A route that carries the marker is written over. */
  lemma MarkedRouteIsReplaced(text: string, domain: string, route: string, v: nat, x: nat)
    requires BlocksOf(text).Some? && OnlyServes(BlocksOf(text).value, domain, v) && OnlyRouteOf(BlocksOf(text).value, v, x)
    ensures var b := BlocksOf(text).value[x];
            && 0 <= b.start <= b.end <= |text|
            && (Contains(text[b.start..b.end], MARKER) ==> RenderRoute(text, domain, route) == Some(text[..b.start] + route + text[b.end..]))
  {
    hide BlocksOf, HttpsServers, ExactRoutes, WellNested, Contains, NoRoute, Serves;
    var found := BlocksOf(text).value;
    BlocksAreWellNested(text);
    ServersAre(found, domain);
    RoutesAre(found, |text|, v);
    SpannedAt(text, x);
  }
}
