/**
 * The Cloudflare account as the reconciler sees it: tunnels and the list
 * query that selects them, DNS records and the query that selects them, and
 * the secret a new tunnel is created with.
 */
module Cloudflare {
  import opened Wrappers
  import Base64
  import Decimal

  /** A remote tunnel. `secret` is the secret it was created with. */
  datatype Tunnel = Tunnel(id: string, name: string, deleted: bool, secret: string)

  /** `cloudflare.TunnelListParams`: an absent filter matches every tunnel. */
  datatype TunnelListParams = TunnelListParams(name: string, isDeleted: Option<bool>, uuid: Option<string>)

  datatype DnsRecord = DnsRecord(recordType: string, name: string, content: string, ttl: int)

  /** `constants.CNAMESuffix`: a tunnel is reached at `<id>.cfargotunnel.com`. */
  const CNAME_SUFFIX: string := ".cfargotunnel.com"

  const CNAME: string := "CNAME"

  /** The bytes `crypto/rand` fills the 32-byte buffer with. */
  type Entropy = s: seq<Base64.Byte> | |s| == 32
    witness [0, 0, 0, 0, 0, 0, 0, 0, 0, 0, 0, 0, 0, 0, 0, 0, 0, 0, 0, 0, 0, 0, 0, 0, 0, 0, 0, 0, 0, 0, 0, 0]

  /**
   * The list query of `createTunnelRemote`: always by name and not deleted,
   * narrowed to the recorded id when there is one.
   */
  function ListParams(name: string, recordedID: string): (p: TunnelListParams)
    ensures p.name == name && p.isDeleted == Some(false)
    ensures p.uuid.Some? <==> recordedID != ""
    ensures p.uuid.Some? ==> p.uuid.value == recordedID
  {
    TunnelListParams(name, Some(false), if recordedID != "" then Some(recordedID) else None)
  }

  predicate Matches(t: Tunnel, p: TunnelListParams)
  {
    && t.name == p.name
    && (p.isDeleted.Some? ==> t.deleted == p.isDeleted.value)
    && (p.uuid.Some? ==> t.id == p.uuid.value)
  }

  /** The tunnels a list query returns, in account order. */
  function MatchingTunnels(ts: seq<Tunnel>, p: TunnelListParams): (r: seq<Tunnel>)
    ensures |r| <= |ts|
    ensures forall t :: t in r <==> t in ts && Matches(t, p)
    decreases |ts|
  {
    if ts == [] then []
    else if Matches(ts[0], p) then [ts[0]] + MatchingTunnels(ts[1..], p)
    else MatchingTunnels(ts[1..], p)
  }

  /** A list query over an account with one more tunnel sees that tunnel last, if it matches. */
  lemma {:induction false} MatchingAppend(ts: seq<Tunnel>, t: Tunnel, p: TunnelListParams)
    ensures MatchingTunnels(ts + [t], p) == MatchingTunnels(ts, p) + (if Matches(t, p) then [t] else [])
    decreases |ts|
  {
    if ts != [] {
      assert (ts + [t])[1..] == ts[1..] + [t];
      MatchingAppend(ts[1..], t, p);
    }
  }

  /** The records a `DNSRecords` query by type and name returns. */
  function MatchingRecords(rs: seq<DnsRecord>, recordType: string, name: string): (r: seq<DnsRecord>)
    ensures forall d :: d in r <==> d in rs && d.recordType == recordType && d.name == name
    decreases |rs|
  {
    if rs == [] then []
    else if rs[0].recordType == recordType && rs[0].name == name then [rs[0]] + MatchingRecords(rs[1..], recordType, name)
    else MatchingRecords(rs[1..], recordType, name)
  }

  /** A tunnel query returns nothing exactly when no tunnel matches it. */
  lemma NoMatchingTunnels(ts: seq<Tunnel>, p: TunnelListParams)
    ensures MatchingTunnels(ts, p) == [] <==> forall t :: t in ts ==> !Matches(t, p)
  {
    var r := MatchingTunnels(ts, p);
    if r != [] {
      assert r[0] in r;
    }
  }

  /** A query returns nothing exactly when no record has that type and name. */
  lemma NoMatchingRecords(rs: seq<DnsRecord>, recordType: string, name: string)
    ensures MatchingRecords(rs, recordType, name) == [] <==>
              forall d :: d in rs ==> !(d.recordType == recordType && d.name == name)
  {
    var r := MatchingRecords(rs, recordType, name);
    if r != [] {
      assert r[0] in r;
    }
  }

  /**
   * The identifier the account gives the n-th tunnel it creates. How the
   * provider picks identifiers is not part of this model; distinct positions
   * get distinct identifiers.
   */
  function MintID(n: nat): string
  {
    "tunnel-" + Decimal.Itoa(n)
  }

  lemma MintIDInjective(m: nat, n: nat)
    requires MintID(m) == MintID(n)
    ensures m == n
  {
    var pm, pn := MintID(m)[7..], MintID(n)[7..];
    assert pm == Decimal.Itoa(m) && pn == Decimal.Itoa(n);
    Decimal.ItoaRoundTrip(m);
    Decimal.ItoaRoundTrip(n);
  }

  /** 32 bytes take 44 characters: ten full quanta and one padded. */
  lemma SecretTextLength(random: seq<Base64.Byte>)
    requires |random| == 32
    ensures |Base64.Encode(random)| == 44
  {
    var n := |random|;
    assert (n + 2) / 3 * 4 == 44;
  }

  /**
   * `generateTunnelSecret`: the 32 random bytes, base64-encoded; None when
   * reading the random source fails.
   */
  function GenerateTunnelSecret(random: Entropy, readFails: bool): (r: Option<string>)
    ensures r.Some? <==> !readFails
    ensures r.Some? ==> |r.value| == 44 && Base64.Decode(r.value) == Some(random)
  {
    if readFails then None
    else
      var text := Base64.Encode(random);
      SecretTextLength(random);
      Base64.RoundTrip(random);
      Some(text)
  }
}
