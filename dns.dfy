/** The two address-list operations the connector takes from its resolver module:
    splitting a resolved list by address family, and pairing resolved IPs with the
    destination port. */
module Dns {
  import opened Net

  predicate IsV6(a: SocketAddr)
  {
    a.ip.V6?
  }

  /** The addresses of `addrs` of one family (IPv6 when `v6`, IPv4 otherwise),
      in their original order. */
  function OfFamily(addrs: seq<SocketAddr>, v6: bool): (r: seq<SocketAddr>)
    ensures |r| <= |addrs|
    ensures forall a :: a in r ==> a in addrs && IsV6(a) == v6
  {
    if addrs == [] then []
    else (if IsV6(addrs[0]) == v6 then [addrs[0]] else []) + OfFamily(addrs[1..], v6)
  }

  /** Filtering by family distributes over concatenation: the relative order of the
      kept addresses is the order they had in the input. */
  lemma {:induction false} OfFamilyAppend(xs: seq<SocketAddr>, ys: seq<SocketAddr>, v6: bool)
    ensures OfFamily(xs + ys, v6) == OfFamily(xs, v6) + OfFamily(ys, v6)
  {
    if xs == [] {
      assert xs + ys == ys;
    } else {
      assert (xs + ys)[1..] == xs[1..] + ys;
      OfFamilyAppend(xs[1..], ys, v6);
    }
  }

  /** The two families together hold every address exactly as often as the input. */
  lemma {:induction false} OfFamilyPartition(xs: seq<SocketAddr>, v6: bool)
    ensures multiset(OfFamily(xs, v6)) + multiset(OfFamily(xs, !v6)) == multiset(xs)
  {
    if xs != [] {
      OfFamilyPartition(xs[1..], v6);
      var head := [xs[0]];
      assert xs == head + xs[1..];
      if IsV6(xs[0]) == v6 {
        assert OfFamily(xs, v6) == head + OfFamily(xs[1..], v6);
        assert OfFamily(xs, !v6) == OfFamily(xs[1..], !v6);
      } else {
        assert OfFamily(xs, v6) == OfFamily(xs[1..], v6);
        assert OfFamily(xs, !v6) == head + OfFamily(xs[1..], !v6);
      }
    }
  }

  /** A family's list is empty exactly when no input address belongs to it. */
  lemma {:induction false} OfFamilyEmpty(xs: seq<SocketAddr>, v6: bool)
    ensures OfFamily(xs, v6) == [] <==> forall a :: a in xs ==> IsV6(a) != v6
  {
    if xs != [] {
      OfFamilyEmpty(xs[1..], v6);
      assert forall a :: a in xs <==> a == xs[0] || a in xs[1..];
    }
  }

  /** `split_by_preference`: the preferred list holds the addresses of the first
      address's family, the fallback list all the others, each in input order. */
  function SplitByPreference(addrs: seq<SocketAddr>): (split: (seq<SocketAddr>, seq<SocketAddr>))
    ensures |addrs| > 0 ==> |split.0| > 0 && split.0[0] == addrs[0]
    ensures |addrs| == 0 ==> split.0 == [] && split.1 == []
    ensures forall a :: a in split.0 ==> IsV6(a) == IsV6(addrs[0])
    ensures forall a :: a in split.1 ==> IsV6(a) != IsV6(addrs[0])
  {
    var preferV6 := |addrs| > 0 && IsV6(addrs[0]);
    (OfFamily(addrs, preferV6), OfFamily(addrs, !preferV6))
  }

  /** Splitting loses no address and duplicates none. */
  lemma SplitIsPartition(addrs: seq<SocketAddr>)
    ensures multiset(SplitByPreference(addrs).0) + multiset(SplitByPreference(addrs).1) == multiset(addrs)
  {
    OfFamilyPartition(addrs, |addrs| > 0 && IsV6(addrs[0]));
  }

  /** The fallback list is empty exactly when every address shares the first one's
      family, so only a list holding both families is raced. */
  lemma SplitFallbackEmpty(addrs: seq<SocketAddr>)
    ensures SplitByPreference(addrs).1 == [] <==> forall a :: a in addrs ==> IsV6(a) == IsV6(addrs[0])
  {
    OfFamilyEmpty(addrs, !(|addrs| > 0 && IsV6(addrs[0])));
  }

  /** The resolved IPs, each paired with the destination port, in resolver order. */
  function WithPort(ips: seq<IpAddr>, port: Port): (addrs: seq<SocketAddr>)
    ensures |addrs| == |ips|
    ensures forall i :: 0 <= i < |ips| ==> addrs[i].ip == ips[i] && addrs[i].port == port
  {
    seq(|ips|, i requires 0 <= i < |ips| => SocketAddr(ips[i], port))
  }
}
