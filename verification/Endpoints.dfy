/** The wildcard rewrite that `configure` applies to the address a socket binds to. */
module Endpoints {
  import opened Outcomes
  import opened Strings

  /** Where the host part of an address starts and ends: after the first "//", and at the
      first ':' from there. */
  datatype HostSpan = HostSpan(start: nat, end: nat)

  function HostOf(address: string): (span: Option<HostSpan>)
    ensures span.Some? ==> 2 <= span.value.start <= span.value.end < |address|
  {
    match Find(address, "//", 0)
    case None => None
    case Some(i) =>
      match FindChar(address, ':', i + 2)
      case None => None
      case Some(colon) => Some(HostSpan(i + 2, colon))
  }

  /** The address that is passed to `bind`. */
  function BindAddress(address: string): string {
    match HostOf(address)
    case None => address
    case Some(h) => address[..h.start] + "*" + address[h.end..]
  }

  /** Texts that agree up to n hold the same pieces up to there. */
  lemma SamePieces(a: string, b: string, n: nat, pat: string, i: nat)
    requires n <= |a| && n <= |b| && a[..n] == b[..n] && i + |pat| <= n
    ensures OccursAt(a, pat, i) <==> OccursAt(b, pat, i)
  {
    assert a[i..i + |pat|] == a[..n][i..i + |pat|];
    assert b[i..i + |pat|] == b[..n][i..i + |pat|];
  }

  /** Texts that agree through the first "//" find it at the same place. */
  lemma SameFirstSlashes(a: string, b: string, n: nat)
    requires n <= |a| && n <= |b| && a[..n] == b[..n]
    requires Find(a, "//", 0).Some? && Find(a, "//", 0).value + 2 <= n
    ensures Find(b, "//", 0) == Find(a, "//", 0)
  {
    var i := Find(a, "//", 0).value;
    SamePieces(a, b, n, "//", i);
    if Find(b, "//", 0).value < i {
      SamePieces(a, b, n, "//", Find(b, "//", 0).value);
    }
  }

  /** In a rewritten address the host span is exactly the "*". */
  lemma RewrittenHost(address: string)
    requires HostOf(address).Some?
    ensures var start := HostOf(address).value.start;
            HostOf(BindAddress(address)) == Some(HostSpan(start, start + 1))
  {
    var h := HostOf(address).value;
    var out := BindAddress(address);
    assert out[..h.start] == address[..h.start];
    SameFirstSlashes(address, out, h.start);
    assert out[h.start] == '*' && out[h.start + 1] == ':';
  }

  /** Rewriting twice is rewriting once. */
  lemma BindIdempotent(address: string)
    ensures BindAddress(BindAddress(address)) == BindAddress(address)
  {
    if HostOf(address).Some? {
      var h := HostOf(address).value;
      var out := BindAddress(address);
      RewrittenHost(address);
      assert out[..h.start] + "*" + out[h.start + 1..] == out;
    }
  }

  /** Everything through the first "//" and everything from the first ':' after it survives,
      with a single '*' in between; an address without such a span is left alone. */
  lemma BindPreserves(address: string)
    ensures HostOf(address).None? ==> BindAddress(address) == address
    ensures HostOf(address).Some? ==>
              var h := HostOf(address).value;
              var out := BindAddress(address);
              && out[..h.start] == address[..h.start]
              && out[h.start] == '*'
              && out[h.start + 1..] == address[h.end..]
              && OccursAt(out, "//", h.start - 2)
  {
  }

  /** Two addresses that have a host span bind to the same place exactly when they agree
      outside it. */
  lemma BindForgetsHost(a: string, b: string)
    requires HostOf(a).Some? && HostOf(b).Some?
    ensures BindAddress(a) == BindAddress(b) <==>
            var ha, hb := HostOf(a).value, HostOf(b).value;
            a[..ha.start] == b[..hb.start] && a[ha.end..] == b[hb.end..]
  {
    var ha, hb := HostOf(a).value, HostOf(b).value;
    if BindAddress(a) == BindAddress(b) {
      RewrittenHost(a);
      RewrittenHost(b);
      BindPreserves(a);
      BindPreserves(b);
    }
  }

  /** The configured address and the one that was bound are the same text exactly when there is no
      host span or the host already is "*". */
  lemma SameAddressIff(address: string)
    ensures BindAddress(address) == address <==>
            HostOf(address).None? ||
            address[HostOf(address).value.start..HostOf(address).value.end] == "*"
  {
  }

  const TCP := "tcp://"

  lemma TcpSlashes(rest: string)
    ensures Find(TCP + rest, "//", 0) == Some(4)
  {
    var a := TCP + rest;
    assert a[4..6] == "//" && OccursAt(a, "//", 4);
    assert forall j | 0 <= j < 4 :: a[j] == TCP[j] && TCP[j] != '/';
    assert forall j: nat :: OccursAt(a, "//", j) ==> a[j..j + 2][0] == a[j];
  }

  /** A TCP address is bound on all interfaces, whatever its host. */
  lemma TcpIsRewritten(host: string, port: string)
    requires ':' !in host
    ensures BindAddress(TCP + (host + ":" + port)) == TCP + "*:" + port
  {
    var tail := host + ":" + port;
    var a := TCP + tail;
    TcpSlashes(tail);
    assert forall i | 6 <= i < 6 + |host| :: a[i] == host[i - 6];
    assert a[6 + |host|] == ':';
    assert FindChar(a, ':', 6) == Some(6 + |host|);
    assert a[..6] == TCP && a[6 + |host|..] == ":" + port;
  }

  /** So the two differ for a host that has a name. */
  lemma LocalhostIsRewritten()
    ensures BindAddress("tcp://localhost:5555") == "tcp://*:5555"
    ensures BindAddress("tcp://localhost:5555") != "tcp://localhost:5555"
  {
    assert "tcp://localhost:5555" == TCP + ("localhost" + ":" + "5555");
    TcpIsRewritten("localhost", "5555");
    assert TCP + "*:" + "5555" == "tcp://*:5555";
  }
}
