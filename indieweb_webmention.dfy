/**
 * Webmention SSRF checks (`Webmention`,
 * secured/php-aegis/src/IndieWeb/Webmention.php): classification of
 * internal IP addresses, source and target URL checks, the combined
 * validation, and DNS-rebinding detection.
 *
 * DNS answers are a parameter (`Resolver`): what `dns_get_record` returns
 * for A and AAAA queries and what `gethostbyname` returns, per host name.
 */
module Webmention {
  import opened Common
  import opened Foreign
  import opened PhpIp

  // ------------------------------------------------------- private ranges

  /** Four octets of an IPv4 address, most significant first. */
  datatype Octets = Octets(o1: nat, o2: nat, o3: nat, o4: nat)

  predicate ValidOctets(o: Octets)
  {
    o.o1 <= 255 && o.o2 <= 255 && o.o3 <= 255 && o.o4 <= 255
  }

  function OctetsText(o: Octets): string
  {
    Quad(o.o1, o.o2, o.o3, o.o4)
  }

  function OctetsValue(o: Octets): nat
  {
    QuadValue(o.o1, o.o2, o.o3, o.o4)
  }

  /**
   * `PRIVATE_IPV4_RANGES`: the first and last address of each range. The
   * source writes each as dotted-quad text; `OctetsText` gives that text,
   * and the range loop hands it to `ip2long`.
   */
  const PrivateIpv4Ranges: seq<(Octets, Octets)> := [
    (Octets(10, 0, 0, 0), Octets(10, 255, 255, 255)),      // 10.0.0.0/8, section 3 of RFC 1918
    (Octets(172, 16, 0, 0), Octets(172, 31, 255, 255)),    // 172.16.0.0/12, section 3 of RFC 1918
    (Octets(192, 168, 0, 0), Octets(192, 168, 255, 255)),  // 192.168.0.0/16, section 3 of RFC 1918
    (Octets(127, 0, 0, 0), Octets(127, 255, 255, 255)),    // loopback 127.0.0.0/8
    (Octets(169, 254, 0, 0), Octets(169, 254, 255, 255)),  // link-local 169.254.0.0/16
    (Octets(100, 64, 0, 0), Octets(100, 127, 255, 255))    // shared address space 100.64.0.0/10, RFC 6598
  ]

  /** One iteration of the range loop: both ends parse and the address lies between them. */
  predicate RangeContains(range: (Octets, Octets), n: nat)
  {
    var longStart, longEnd := Ip2Long(OctetsText(range.0)), Ip2Long(OctetsText(range.1));
    longStart.Some? && longEnd.Some? && longStart.value <= n <= longEnd.value
  }

  /** The range loop returns `true`. */
  predicate InPrivateRanges(n: nat)
  {
    exists i :: 0 <= i < |PrivateIpv4Ranges| && RangeContains(PrivateIpv4Ranges[i], n)
  }

  /** A CIDR block: `size` addresses from `base`. */
  datatype Cidr = Cidr(base: nat, size: nat)

  predicate InCidr(n: nat, block: Cidr)
  {
    block.base <= n < block.base + block.size
  }

  /** The six blocks the ranges are meant to be, written as base and prefix size. */
  const PrivateBlocks: seq<Cidr> := [
    Cidr(QuadValue(10, 0, 0, 0), 0x100_0000),
    Cidr(QuadValue(172, 16, 0, 0), 0x10_0000),
    Cidr(QuadValue(192, 168, 0, 0), 0x1_0000),
    Cidr(QuadValue(127, 0, 0, 0), 0x100_0000),
    Cidr(QuadValue(169, 254, 0, 0), 0x1_0000),
    Cidr(QuadValue(100, 64, 0, 0), 0x40_0000)
  ]

  predicate InPrivateBlock(n: nat)
  {
    exists i :: 0 <= i < |PrivateBlocks| && InCidr(n, PrivateBlocks[i])
  }

  lemma OctetsTextValue(o: Octets)
    requires ValidOctets(o)
    ensures Ip2Long(OctetsText(o)) == Some(OctetsValue(o))
  {
    Ip2LongQuad(o.o1, o.o2, o.o3, o.o4);
  }

  /** The first address of each range parses to the base of its block. */
  lemma RangeStart(i: nat)
    requires i < |PrivateIpv4Ranges|
    ensures Ip2Long(OctetsText(PrivateIpv4Ranges[i].0)) == Some(PrivateBlocks[i].base)
  {
    assert ValidOctets(PrivateIpv4Ranges[i].0) && OctetsValue(PrivateIpv4Ranges[i].0) == PrivateBlocks[i].base;
    OctetsTextValue(PrivateIpv4Ranges[i].0);
  }

  /** The last address of each range parses to the last address of its block. */
  lemma RangeEnd(i: nat)
    requires i < |PrivateIpv4Ranges|
    ensures Ip2Long(OctetsText(PrivateIpv4Ranges[i].1)) == Some(PrivateBlocks[i].base + PrivateBlocks[i].size - 1)
  {
    var last := PrivateBlocks[i].base + PrivateBlocks[i].size - 1;
    assert ValidOctets(PrivateIpv4Ranges[i].1) && OctetsValue(PrivateIpv4Ranges[i].1) == last;
    OctetsTextValue(PrivateIpv4Ranges[i].1);
  }

  /** The range loop accepts exactly the addresses of the six blocks. */
  lemma RangesAreBlocks(n: nat)
    ensures InPrivateRanges(n) <==> InPrivateBlock(n)
  {
    forall i | 0 <= i < |PrivateIpv4Ranges|
      ensures RangeContains(PrivateIpv4Ranges[i], n) <==> InCidr(n, PrivateBlocks[i])
    {
      RangeStart(i);
      RangeEnd(i);
    }
  }

  /** The same, by the first two octets of the address. */
  predicate PrivateOctets(a: nat, b: nat)
  {
    a == 10 || (a == 172 && 16 <= b <= 31) || (a == 192 && b == 168) || a == 127 || (a == 169 && b == 254)
    || (a == 100 && 64 <= b <= 127)
  }

  lemma BlocksByOctets(a: nat, b: nat, c: nat, d: nat)
    requires a <= 255 && b <= 255 && c <= 255 && d <= 255
    ensures InPrivateBlock(QuadValue(a, b, c, d)) <==> PrivateOctets(a, b)
  {
    var n := QuadValue(a, b, c, d);
    if PrivateOctets(a, b) {
      if a == 10 { assert InCidr(n, PrivateBlocks[0]); }
      else if a == 172 { assert InCidr(n, PrivateBlocks[1]); }
      else if a == 192 { assert InCidr(n, PrivateBlocks[2]); }
      else if a == 127 { assert InCidr(n, PrivateBlocks[3]); }
      else if a == 169 { assert InCidr(n, PrivateBlocks[4]); }
      else { assert InCidr(n, PrivateBlocks[5]); }
    }
  }

  // ------------------------------------------------------------ isInternalIp

  /** The textual IPv6 checks: `::1`, `::`, and the prefixes `fe80:`, `fc` and `fd`. */
  predicate Ipv6Private(ip: string)
  {
    ip == "::1" || ip == "::" || StartsWith(ip, "fe80:") || StartsWith(ip, "fc") || StartsWith(ip, "fd")
  }

  /** `isInternalIp`. */
  function IsInternalIp(ip: string, v: Validator): (internal: bool)
    ensures !v.ip(ip) ==> !internal
    ensures v.ip(ip) && !v.publicIp(ip) ==> internal
  {
    if !v.ip(ip) then false
    else if !v.publicIp(ip) then true
    else if v.ipv4(ip) && (Ip2Long(ip).None? || InPrivateRanges(Ip2Long(ip).value)) then true
    else v.ipv6(ip) && Ipv6Private(ip)
  }

  /** Every IPv4 address (by the validators' judgement) inside one of the six blocks is internal. */
  lemma Ipv4BlocksInternal(ip: string, v: Validator, n: nat)
    requires v.ip(ip) && v.ipv4(ip)
    requires Ip2Long(ip) == Some(n) && InPrivateBlock(n)
    ensures IsInternalIp(ip, v)
  {
    RangesAreBlocks(n);
  }

  /**
   * When the address passes `filter_var` and is IPv4 only, it is internal
   * exactly when it lies in one of the six blocks; for a dotted quad, when
   * its first two octets name a private range.
   */
  lemma PublicIpv4Meaning(a: nat, b: nat, c: nat, d: nat, v: Validator)
    requires a <= 255 && b <= 255 && c <= 255 && d <= 255
    requires v.ip(Quad(a, b, c, d)) && v.publicIp(Quad(a, b, c, d))
    requires v.ipv4(Quad(a, b, c, d)) && !v.ipv6(Quad(a, b, c, d))
    ensures IsInternalIp(Quad(a, b, c, d), v) <==> PrivateOctets(a, b)
  {
    Ip2LongQuad(a, b, c, d);
    RangesAreBlocks(QuadValue(a, b, c, d));
    BlocksByOctets(a, b, c, d);
  }

  /** IPv4 text that `ip2long` rejects is treated as internal, to err on the safe side. */
  lemma UnparsableIpv4Internal(ip: string, v: Validator)
    requires v.ip(ip) && v.ipv4(ip) && Ip2Long(ip).None?
    ensures IsInternalIp(ip, v)
  {
  }

  /** A valid IPv6 address equal to `::1` or `::`, or beginning `fe80:`, `fc` or `fd`, is internal. */
  lemma Ipv6PrefixesInternal(ip: string, v: Validator)
    requires v.ip(ip) && v.ipv6(ip) && Ipv6Private(ip)
    ensures IsInternalIp(ip, v)
  {
  }

  /** A dotted quad whose first two octets name a private range is internal, whatever `filter_var` says. */
  lemma PrivateQuadInternal(a: nat, b: nat, c: nat, d: nat, v: Validator)
    requires a <= 255 && b <= 255 && c <= 255 && d <= 255 && PrivateOctets(a, b)
    requires v.ip(Quad(a, b, c, d)) && v.ipv4(Quad(a, b, c, d))
    ensures IsInternalIp(Quad(a, b, c, d), v)
  {
    Ip2LongQuad(a, b, c, d);
    BlocksByOctets(a, b, c, d);
    Ipv4BlocksInternal(Quad(a, b, c, d), v, QuadValue(a, b, c, d));
  }

  /** The IPv4 addresses of the SSRF sample set (127.0.0.1, 10.0.0.1, 192.168.1.1, 172.16.0.1) are internal. */
  lemma SampleIpv4Internal(v: Validator)
    requires v.ip(Quad(127, 0, 0, 1)) && v.ipv4(Quad(127, 0, 0, 1))
    requires v.ip(Quad(10, 0, 0, 1)) && v.ipv4(Quad(10, 0, 0, 1))
    requires v.ip(Quad(192, 168, 1, 1)) && v.ipv4(Quad(192, 168, 1, 1))
    requires v.ip(Quad(172, 16, 0, 1)) && v.ipv4(Quad(172, 16, 0, 1))
    ensures IsInternalIp(Quad(127, 0, 0, 1), v) && IsInternalIp(Quad(10, 0, 0, 1), v)
    ensures IsInternalIp(Quad(192, 168, 1, 1), v) && IsInternalIp(Quad(172, 16, 0, 1), v)
  {
    PrivateQuadInternal(127, 0, 0, 1, v);
    PrivateQuadInternal(10, 0, 0, 1, v);
    PrivateQuadInternal(192, 168, 1, 1, v);
    PrivateQuadInternal(172, 16, 0, 1, v);
  }

  /**
   * The IPv6 prefix checks are on text, not on address bits: "fc::1" (that
   * is 00fc::1, outside fc00::/7) begins with "fc" and so is flagged as
   * internal, even when `filter_var` passes it as public.
   */
  lemma Ipv6ChecksAreTextual(v: Validator)
    requires v.ip("fc::1") && v.publicIp("fc::1") && v.ipv6("fc::1")
    ensures IsInternalIp("fc::1", v)
  {
    assert "fc::1"[..2] == "fc";
  }

  // ------------------------------------------------------------- resolution

  /** One record of a `dns_get_record` answer; `None` is an unset key. */
  datatype DnsRecord = DnsRecord(ip: Option<string>, ipv6: Option<string>)

  /** The DNS as the resolver sees it; `None` stands for `false` from `dns_get_record`. */
  datatype Resolver = Resolver(
    a: string -> Option<seq<DnsRecord>>,     // dns_get_record($host, DNS_A)
    aaaa: string -> Option<seq<DnsRecord>>,  // dns_get_record($host, DNS_AAAA)
    byName: string -> string                 // gethostbyname($host)
  )

  function Ipv4Of(r: DnsRecord): seq<string>
  {
    if r.ip.Some? then [r.ip.value] else []
  }

  function Ipv6Of(r: DnsRecord): seq<string>
  {
    if r.ipv6.Some? then [r.ipv6.value] else []
  }

  /** The addresses a list of records carries in one field, in order. */
  function RecordAddresses(records: Option<seq<DnsRecord>>, field: DnsRecord -> seq<string>): seq<string>
  {
    if records.None? then [] else FlatMap(records.value, field)
  }

  /** What `resolveHost` collects: A then AAAA addresses, or else the `gethostbyname` answer if it differs from the name. */
  function ResolvedAddresses(host: string, dns: Resolver): seq<string>
  {
    var ips := RecordAddresses(dns.a(host), Ipv4Of) + RecordAddresses(dns.aaaa(host), Ipv6Of);
    if ips != [] then ips
    else if dns.byName(host) != host then [dns.byName(host)]
    else []
  }

  /** `resolveHost`'s result: `None` when nothing was found. */
  function Resolve(host: string, dns: Resolver): Option<seq<string>>
  {
    if ResolvedAddresses(host, dns) == [] then None else Some(ResolvedAddresses(host, dns))
  }

  /** The loop over one answer, appending every set address field. */
  method CollectAddresses(records: Option<seq<DnsRecord>>, field: DnsRecord -> seq<string>, ips: seq<string>)
    returns (out: seq<string>)
    ensures out == ips + RecordAddresses(records, field)
  {
    out := ips;
    if records.Some? {
      var rs := records.value;
      for i := 0 to |rs|
        invariant out == ips + FlatMap(rs[..i], field)
      {
        assert rs[..i + 1][..i] == rs[..i];
        out := out + field(rs[i]);
      }
      assert rs[..|rs|] == rs;
    }
  }

  /** `resolveHost`. */
  method ResolveHost(host: string, dns: Resolver) returns (r: Option<seq<string>>)
    ensures r == Resolve(host, dns)
  {
    var ips := CollectAddresses(dns.a(host), Ipv4Of, []);
    assert ips == RecordAddresses(dns.a(host), Ipv4Of);
    ips := CollectAddresses(dns.aaaa(host), Ipv6Of, ips);
    assert ips == RecordAddresses(dns.a(host), Ipv4Of) + RecordAddresses(dns.aaaa(host), Ipv6Of);
    if ips == [] {
      var ip := dns.byName(host);
      if ip != host {
        ips := ips + [ip];
      }
    }
    assert ips == ResolvedAddresses(host, dns);
    r := if ips == [] then None else Some(ips);
  }

  /** An address that can be found in an answer's records. */
  predicate FromRecords(x: string, records: Option<seq<DnsRecord>>, field: DnsRecord -> seq<string>)
  {
    records.Some? && exists i :: 0 <= i < |records.value| && x in field(records.value[i])
  }

  lemma RecordAddressesMember(records: Option<seq<DnsRecord>>, field: DnsRecord -> seq<string>, x: string)
    ensures x in RecordAddresses(records, field) <==> FromRecords(x, records, field)
  {
    if records.Some? {
      FlatMapMember(records.value, field, x);
    }
  }

  /**
   * Resolution fails exactly when no A record has an `ip`, no AAAA record
   * has an `ipv6` and `gethostbyname` hands the name back; every address it
   * does return comes from a record, or from `gethostbyname` when no record
   * had one.
   */
  lemma ResolveMeaning(host: string, dns: Resolver, x: string)
    ensures Resolve(host, dns).None? <==>
      (forall y :: !FromRecords(y, dns.a(host), Ipv4Of) && !FromRecords(y, dns.aaaa(host), Ipv6Of))
      && dns.byName(host) == host
    ensures Resolve(host, dns).Some? && x in Resolve(host, dns).value ==>
      FromRecords(x, dns.a(host), Ipv4Of) || FromRecords(x, dns.aaaa(host), Ipv6Of) || x == dns.byName(host)
  {
    var ra := RecordAddresses(dns.a(host), Ipv4Of);
    var r6 := RecordAddresses(dns.aaaa(host), Ipv6Of);
    RecordAddressesMember(dns.a(host), Ipv4Of, x);
    RecordAddressesMember(dns.aaaa(host), Ipv6Of, x);
    if ra + r6 != [] {
      var y := (ra + r6)[0];
      assert y in ra || y in r6;
      RecordAddressesMember(dns.a(host), Ipv4Of, y);
      RecordAddressesMember(dns.aaaa(host), Ipv6Of, y);
    } else {
      forall y
        ensures !FromRecords(y, dns.a(host), Ipv4Of) && !FromRecords(y, dns.aaaa(host), Ipv6Of)
      {
        RecordAddressesMember(dns.a(host), Ipv4Of, y);
        RecordAddressesMember(dns.aaaa(host), Ipv6Of, y);
      }
    }
  }

  // --------------------------------------------------------- source, target

  /** `validateSource`. */
  function ValidateSource(url: string, allowHttp: bool, v: Validator, dns: Resolver): (safe: bool)
    ensures safe ==> v.url(url) && (allowHttp || v.httpsUrl(url))
    ensures safe ==> v.parseUrl(url).Some? && v.parseUrl(url).value.host.Some?
  {
    if !v.url(url) then false
    else if !allowHttp && !v.httpsUrl(url) then false
    else match v.parseUrl(url)
      case None => false
      case Some(parts) =>
        if parts.host.None? then false
        else
          var host := parts.host.value;
          if v.ip(host) then !IsInternalIp(host, v)
          else match Resolve(host, dns)
            case None => false
            case Some(ips) => forall i :: 0 <= i < |ips| ==> !IsInternalIp(ips[i], v)
  }

  /**
   * For a URL that passes the URL checks and has a host: an IP-literal host
   * is safe iff it is not internal; a name is safe iff it resolves and no
   * resolved address is internal.
   */
  lemma SourceMeaning(url: string, allowHttp: bool, v: Validator, dns: Resolver, parts: UrlParts)
    requires v.url(url) && (allowHttp || v.httpsUrl(url))
    requires v.parseUrl(url) == Some(parts) && parts.host.Some?
    ensures v.ip(parts.host.value) ==>
      (ValidateSource(url, allowHttp, v, dns) <==> !IsInternalIp(parts.host.value, v))
    ensures !v.ip(parts.host.value) && Resolve(parts.host.value, dns).None? ==> !ValidateSource(url, allowHttp, v, dns)
    ensures !v.ip(parts.host.value) && Resolve(parts.host.value, dns).Some? ==>
      (ValidateSource(url, allowHttp, v, dns) <==>
        forall x :: x in Resolve(parts.host.value, dns).value ==> !IsInternalIp(x, v))
  {
  }

  /** A source whose host resolves to a private IPv4 address is rejected, whatever `filter_var` says. */
  lemma SourceResolvingToPrivateRejected(url: string, allowHttp: bool, v: Validator, dns: Resolver, x: string, n: nat)
    requires v.parseUrl(url).Some? && v.parseUrl(url).value.host.Some?
    requires !v.ip(v.parseUrl(url).value.host.value)
    requires Resolve(v.parseUrl(url).value.host.value, dns).Some?
    requires x in Resolve(v.parseUrl(url).value.host.value, dns).value
    requires v.ip(x) && v.ipv4(x) && Ip2Long(x) == Some(n) && InPrivateBlock(n)
    ensures !ValidateSource(url, allowHttp, v, dns)
  {
    Ipv4BlocksInternal(x, v, n);
  }

  /** `validateTarget`. */
  function ValidateTarget(url: string, yourDomain: string, v: Validator): (ok: bool)
    ensures ok ==> v.url(url) && v.parseUrl(url).Some? && v.parseUrl(url).value.host.Some?
    ensures ok ==> !v.ip(v.parseUrl(url).value.host.value)
  {
    if !v.url(url) then false
    else match v.parseUrl(url)
      case None => false
      case Some(parts) =>
        if parts.host.None? then false
        else
          var host := parts.host.value;
          if v.ip(host) then false
          else host == yourDomain || EndsWith(host, "." + yourDomain)
  }

  /**
   * An accepted target's host is the domain itself or ends with the domain
   * right after a dot: a name that merely ends with the domain's letters
   * is not accepted.
   */
  lemma TargetHostMatches(url: string, yourDomain: string, v: Validator)
    requires ValidateTarget(url, yourDomain, v)
    ensures var host := v.parseUrl(url).value.host.value;
      host == yourDomain
      || (|host| > |yourDomain| && EndsWith(host, yourDomain) && host[|host| - |yourDomain| - 1] == '.')
  {
    var host := v.parseUrl(url).value.host.value;
    if host != yourDomain {
      var suffix := "." + yourDomain;
      assert host[|host| - |suffix|..] == suffix;
      assert host[|host| - |yourDomain|..] == suffix[1..];
      assert host[|host| - |yourDomain| - 1] == suffix[0];
    }
  }

  /** For a URL with a host that is not an IP literal, the domain and every subdomain of it are accepted. */
  lemma TargetAcceptsSubdomains(url: string, yourDomain: string, v: Validator, sub: string)
    requires v.url(url) && v.parseUrl(url).Some?
    requires v.parseUrl(url).value.host == Some(sub + "." + yourDomain)
    requires !v.ip(sub + "." + yourDomain)
    ensures ValidateTarget(url, yourDomain, v)
  {
    var host := sub + "." + yourDomain;
    assert host[|host| - |"." + yourDomain|..] == "." + yourDomain;
  }

  /** IP-literal targets are rejected. */
  lemma TargetRejectsIp(url: string, yourDomain: string, v: Validator)
    requires v.parseUrl(url).Some? && v.parseUrl(url).value.host.Some?
    requires v.ip(v.parseUrl(url).value.host.value)
    ensures !ValidateTarget(url, yourDomain, v)
  {
  }

  /** "evilexample.com" is not accepted for "example.com". */
  lemma TargetRejectsLookalike(url: string, v: Validator)
    requires v.parseUrl(url).Some? && v.parseUrl(url).value.host == Some("evilexample.com")
    ensures !ValidateTarget(url, "example.com", v)
  {
    var host := "evilexample.com";
    assert host[|host| - 12] == 'l';
    assert ("." + "example.com")[0] == '.';
  }

  // ---------------------------------------------------- validateWebmention

  /** One validation message; `Message` gives its exact text. */
  datatype Problem = UnsafeSource | BadTarget | SameUrl

  function Message(p: Problem): string
  {
    match p
    case UnsafeSource => "Invalid or unsafe source URL (may resolve to internal IP)"
    case BadTarget => "Invalid target URL or does not match your domain"
    case SameUrl => "Source and target cannot be the same URL"
  }

  /** `['valid' => ..., 'errors' => ...]`. */
  datatype Validation = Validation(valid: bool, errors: seq<Problem>)

  /** The messages, each present exactly when its check fails, in the order source, target, sameness. */
  function WebmentionErrors(source: string, target: string, yourDomain: string, allowHttp: bool, v: Validator, dns: Resolver)
    : seq<Problem>
  {
    (if !ValidateSource(source, allowHttp, v, dns) then [UnsafeSource] else [])
    + (if !ValidateTarget(target, yourDomain, v) then [BadTarget] else [])
    + (if source == target then [SameUrl] else [])
  }

  /** `validateWebmention`. */
  method ValidateWebmention(source: string, target: string, yourDomain: string, allowHttp: bool, v: Validator, dns: Resolver)
    returns (r: Validation)
    ensures r.errors == WebmentionErrors(source, target, yourDomain, allowHttp, v, dns)
    ensures r.valid <==> r.errors == []
  {
    var errors: seq<Problem> := [];
    if !ValidateSource(source, allowHttp, v, dns) {
      errors := errors + [UnsafeSource];
    }
    if !ValidateTarget(target, yourDomain, v) {
      errors := errors + [BadTarget];
    }
    if source == target {
      errors := errors + [SameUrl];
    }
    r := Validation(errors == [], errors);
  }

  /**
   * At most three messages, none twice, in a fixed order; each is present
   * iff its check fails; the result is valid iff source and target pass and
   * differ.
   */
  lemma WebmentionErrorsMeaning(source: string, target: string, yourDomain: string, allowHttp: bool, v: Validator, dns: Resolver)
    ensures var errs := WebmentionErrors(source, target, yourDomain, allowHttp, v, dns);
      && |errs| <= 3
      && (UnsafeSource in errs <==> !ValidateSource(source, allowHttp, v, dns))
      && (BadTarget in errs <==> !ValidateTarget(target, yourDomain, v))
      && (SameUrl in errs <==> source == target)
      && (forall i, j :: 0 <= i < j < |errs| ==> ProblemRank(errs[i]) < ProblemRank(errs[j]))
      && (errs == [] <==> ValidateSource(source, allowHttp, v, dns) && ValidateTarget(target, yourDomain, v) && source != target)
  {
  }

  /** The position of each message in the fixed order. */
  function ProblemRank(p: Problem): nat
  {
    match p
    case UnsafeSource => 0
    case BadTarget => 1
    case SameUrl => 2
  }

  /** The same URL as source and target is never a valid webmention. */
  lemma SameUrlInvalid(url: string, yourDomain: string, allowHttp: bool, v: Validator, dns: Resolver)
    ensures SameUrl in WebmentionErrors(url, url, yourDomain, allowHttp, v, dns)
  {
  }

  // ------------------------------------------------------- DNS rebinding

  /** `array_diff($current, $original)`: the current addresses not among the original ones, in order. */
  function ArrayDiff(current: seq<string>, original: seq<string>): seq<string>
  {
    Filter(current, (x: string) => x !in original)
  }

  /** `detectDnsRebinding`. */
  function DetectDnsRebinding(url: string, originalIps: seq<string>, v: Validator, dns: Resolver): bool
  {
    match v.parseUrl(url)
    case None => true
    case Some(parts) =>
      if parts.host.None? then true
      else match Resolve(parts.host.value, dns)
        case None => true
        case Some(currentIps) => ArrayDiff(currentIps, originalIps) != []
  }

  /**
   * A rebinding is reported iff the URL has no host, the host does not
   * resolve, or some current address is not among the original ones.
   */
  lemma RebindingMeaning(url: string, originalIps: seq<string>, v: Validator, dns: Resolver)
    ensures DetectDnsRebinding(url, originalIps, v, dns) <==>
      || v.parseUrl(url).None?
      || v.parseUrl(url).value.host.None?
      || Resolve(v.parseUrl(url).value.host.value, dns).None?
      || exists x :: x in Resolve(v.parseUrl(url).value.host.value, dns).value && x !in originalIps
  {
    if v.parseUrl(url).Some? && v.parseUrl(url).value.host.Some? && Resolve(v.parseUrl(url).value.host.value, dns).Some? {
      var current := Resolve(v.parseUrl(url).value.host.value, dns).value;
      var p := (x: string) => x !in originalIps;
      if ArrayDiff(current, originalIps) != [] {
        var y := ArrayDiff(current, originalIps)[0];
        FilterMembers(current, p, y);
        assert y in current && p(y);
      }
      forall x | x in current && x !in originalIps
        ensures ArrayDiff(current, originalIps) != []
      {
        FilterMembers(current, p, x);
      }
    }
  }

  /** With an unchanged DNS, re-checking against the first resolution reports nothing. */
  lemma StableDnsNoRebinding(url: string, v: Validator, dns: Resolver)
    requires v.parseUrl(url).Some? && v.parseUrl(url).value.host.Some?
    requires Resolve(v.parseUrl(url).value.host.value, dns).Some?
    ensures !DetectDnsRebinding(url, Resolve(v.parseUrl(url).value.host.value, dns).value, v, dns)
  {
    RebindingMeaning(url, Resolve(v.parseUrl(url).value.host.value, dns).value, v, dns);
  }
}
