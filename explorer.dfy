/**
 * The two Solana-explorer links shown in the success panel of the minting form:
 * one for the mint address, one for the transaction signature, each carrying the
 * active network as its `cluster` query parameter.
 *
 * `Parse` is an independent reader of links of exactly this shape; `ParseUrl` proves
 * that every link built from an identifier without `?` reads back as the address or
 * signature and the network it was built from.
 */
module Explorer {
  import opened Wrappers

  const EXPLORER_ORIGIN: string := "https://explorer.solana.com/"
  const CLUSTER_QUERY: string := "?cluster="

  /** Which explorer page a link opens. */
  datatype Kind = Address | Tx

  /** What a link identifies: a page kind, the key or signature, and the network. */
  datatype Link = Link(kind: Kind, id: string, cluster: string)

  function Segment(k: Kind): string {
    match k
    case Address => "address/"
    case Tx => "tx/"
  }

  function Url(l: Link): string {
    EXPLORER_ORIGIN + Segment(l.kind) + l.id + CLUSTER_QUERY + l.cluster
  }

  /** The mint-address link of the success panel. */
  function AddressUrl(mintAddress: string, networkConfiguration: string): (url: string)
    ensures StartsWith(EXPLORER_ORIGIN + "address/", url)
    ensures '?' !in mintAddress ==> Parse(url) == Some(Link(Address, mintAddress, networkConfiguration))
  {
    var link := Link(Address, mintAddress, networkConfiguration);
    if '?' in mintAddress then Url(link)
    else
      ParseUrl(link);
      Url(link)
  }

  /** The transaction link of the success panel. */
  function TxUrl(mintSignature: string, networkConfiguration: string): (url: string)
    ensures StartsWith(EXPLORER_ORIGIN + "tx/", url)
    ensures '?' !in mintSignature ==> Parse(url) == Some(Link(Tx, mintSignature, networkConfiguration))
  {
    var link := Link(Tx, mintSignature, networkConfiguration);
    if '?' in mintSignature then Url(link)
    else
      ParseUrl(link);
      Url(link)
  }

  predicate StartsWith(prefix: string, s: string) {
    |prefix| <= |s| && s[..|prefix|] == prefix
  }

  /** The position of the first `c` in `s`, if there is one. */
  function IndexOf(s: string, c: char): (r: Option<nat>)
    ensures r.Some? ==> r.value < |s| && s[r.value] == c
    ensures r.Some? ==> forall j :: 0 <= j < r.value ==> s[j] != c
    ensures r.None? ==> c !in s
  {
    if |s| == 0 then None
    else if s[0] == c then Some(0)
    else
      match IndexOf(s[1..], c)
      case None => None
      case Some(i) => Some(i + 1)
  }

  function KindOf(path: string): (r: Option<Kind>)
    ensures r.Some? ==> StartsWith(Segment(r.value), path)
    ensures r.None? ==> !StartsWith(Segment(Address), path) && !StartsWith(Segment(Tx), path)
  {
    if StartsWith(Segment(Address), path) then Some(Address)
    else if StartsWith(Segment(Tx), path) then Some(Tx)
    else None
  }

  /**
   * Reads an explorer link: the origin, a page segment, the identifier up to the
   * first `?`, then `?cluster=` and the network.
   */
  function Parse(url: string): (r: Option<Link>)
    ensures r.Some? ==> '?' !in r.value.id
  {
    if !StartsWith(EXPLORER_ORIGIN, url) then None
    else
      var path := url[|EXPLORER_ORIGIN|..];
      match KindOf(path)
      case None => None
      case Some(k) =>
        var tail := path[|Segment(k)|..];
        match IndexOf(tail, '?')
        case None => None
        case Some(i) =>
          if StartsWith(CLUSTER_QUERY, tail[i..])
          then Some(Link(k, tail[..i], tail[i + |CLUSTER_QUERY|..]))
          else None
  }

  lemma {:induction false} IndexOfPrefix(s: string, rest: string, c: char)
    requires c !in s
    requires |rest| > 0 && rest[0] == c
    ensures IndexOf(s + rest, c) == Some(|s|)
  {
    if |s| > 0 {
      assert (s + rest)[1..] == s[1..] + rest;
      IndexOfPrefix(s[1..], rest, c);
    } else {
      assert s + rest == rest;
    }
  }

  lemma PrefixFacts(p: string, s: string)
    ensures StartsWith(p, p + s)
    ensures (p + s)[|p|..] == s
  {
  }

  /** `Parse` reads the identifier and the network off a path that starts with a page segment. */
  lemma ParseTail(k: Kind, id: string, cluster: string)
    requires '?' !in id
    ensures Parse(EXPLORER_ORIGIN + (Segment(k) + (id + (CLUSTER_QUERY + cluster)))) == Some(Link(k, id, cluster))
  {
    var query := CLUSTER_QUERY + cluster;
    var tail := id + query;
    var path := Segment(k) + tail;
    PrefixFacts(EXPLORER_ORIGIN, path);
    PrefixFacts(Segment(k), tail);
    assert KindOf(path) == Some(k) by {
      if k == Tx {
        assert path[0] == 't';
      }
    }
    IndexOfPrefix(id, query, '?');
    PrefixFacts(id, query);
    assert tail[..|id|] == id;
    PrefixFacts(CLUSTER_QUERY, cluster);
    assert tail[|id| + |CLUSTER_QUERY|..] == cluster by {
      assert tail[|id| + |CLUSTER_QUERY|..] == tail[|id|..][|CLUSTER_QUERY|..];
    }
  }

  /**
   * Every link the form builds from an identifier without `?` (base58 text never
   * holds one) reads back as that identifier, its page kind and its network.
   */
  lemma ParseUrl(l: Link)
    requires '?' !in l.id
    ensures Parse(Url(l)) == Some(l)
  {
    assert Url(l) == EXPLORER_ORIGIN + (Segment(l.kind) + (l.id + (CLUSTER_QUERY + l.cluster)));
    ParseTail(l.kind, l.id, l.cluster);
  }

  /** Distinct addresses (or signatures, or networks) give distinct links. */
  lemma UrlInjective(l1: Link, l2: Link)
    requires '?' !in l1.id && '?' !in l2.id
    ensures Url(l1) == Url(l2) <==> l1 == l2
  {
    if Url(l1) == Url(l2) {
      ParseUrl(l1);
      ParseUrl(l2);
    }
  }

  /** The address link and the transaction link never coincide. */
  lemma AddressAndTxLinksDiffer(mintAddress: string, mintSignature: string, network1: string, network2: string)
    ensures AddressUrl(mintAddress, network1) != TxUrl(mintSignature, network2)
  {
    var k := |EXPLORER_ORIGIN|;
    assert AddressUrl(mintAddress, network1)[k] == 'a';
    assert TxUrl(mintSignature, network2)[k] == 't';
  }
}
