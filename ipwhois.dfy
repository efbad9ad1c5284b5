/**
 * The ipwho.is client: one lookup per IP, a bulk lookup over the first
 * resolutions of a domain, and a single lookup for an IP report. The HTTP
 * request is the function `fetch`, from the full URL to the decoded JSON
 * reply or the error the request raised.
 */
module IpWhoisClient {
  import opened Wrappers
  import opened Seqs
  import opened Models

  const BASE_URL := "https://ipwho.is"

  /** The reply's "success" member: missing, a JSON boolean, or any other JSON value. */
  datatype SuccessField = Absent | JsonBool(b: bool) | OtherJson

  /** A decoded reply: its "success" member, and the body read as a record when it has the record's shape. */
  datatype Reply = Reply(success: SuccessField, record: Option<IpWhois>)

  /** What escapes a lookup: the request's own error, or a reply that claims success but is not a record. */
  datatype ClientError = RequestFailed(reason: string) | InvalidRecord(url: string)

  type Fetch = string -> Result<Reply, string>

  function Url(ip: string): string
  {
    BASE_URL + "/" + ip
  }

  /** `get_ipwhois`: the record when the reply's "success" is exactly `true`, no record otherwise. */
  function GetIpWhois(fetch: Fetch, ip: string): (r: Result<Option<IpWhois>, ClientError>)
    ensures fetch(Url(ip)).Failure? ==> r == Failure(RequestFailed(fetch(Url(ip)).error))
    ensures fetch(Url(ip)).Success? ==>
      var reply := fetch(Url(ip)).value;
      && (reply.success != JsonBool(true) ==> r == Success(None))
      && (reply.success == JsonBool(true) && reply.record.Some? ==> r == Success(reply.record))
      && (reply.success == JsonBool(true) && reply.record.None? ==> r == Failure(InvalidRecord(Url(ip))))
  {
    match fetch(Url(ip))
    case Failure(e) => Failure(RequestFailed(e))
    case Success(reply) =>
      if reply.success == JsonBool(true) then
        match reply.record
        case Some(w) => Success(Some(w))
        case None => Failure(InvalidRecord(Url(ip)))
      else Success(None)
  }

  /** The addresses the bulk lookup asks for: the first ones, up to the cap. */
  function Queried(data: seq<Resolution>, maxIpsToEnrich: int): (ips: seq<string>)
    ensures |ips| == Taken(maxIpsToEnrich, |data|)
    ensures forall j :: 0 <= j < |ips| ==> ips[j] == data[j].ipAddress
  {
    var n := Taken(maxIpsToEnrich, |data|);
    seq(n, j requires 0 <= j < n => data[j].ipAddress)
  }

  /**
   * The lookups in order, each found record stored under its own "ip",
   * the first error ending the run.
   */
  function Enriched(fetch: Fetch, ips: seq<string>): Result<map<string, IpWhois>, ClientError>
    decreases |ips|
  {
    if |ips| == 0 then Success(map[])
    else
      match Enriched(fetch, ips[..|ips| - 1])
      case Failure(e) => Failure(e)
      case Success(m) =>
        match GetIpWhois(fetch, ips[|ips| - 1])
        case Failure(e) => Failure(e)
        case Success(None) => Success(m)
        case Success(Some(w)) => Success(m[w.ip := w])
  }

  function AsEnrichMap(r: Result<map<string, IpWhois>, ClientError>): Result<EnrichMap, ClientError>
  {
    match r
    case Failure(e) => Failure(e)
    case Success(m) => Success(IpWhoisMap(m))
  }

  lemma EnrichedSnoc(fetch: Fetch, ips: seq<string>, i: nat)
    requires i < |ips|
    ensures Enriched(fetch, ips[..i + 1]) ==
      match Enriched(fetch, ips[..i])
      case Failure(e) => Failure(e)
      case Success(m) =>
        match GetIpWhois(fetch, ips[i])
        case Failure(e) => Failure(e)
        case Success(None) => Success(m)
        case Success(Some(w)) => Success(m[w.ip := w])
  {
    assert ips[..i + 1][..i] == ips[..i];
  }

  method BulkGetIpWhois(fetch: Fetch, resolutions: Resolutions, maxIpsToEnrich: int)
    returns (r: Result<EnrichMap, ClientError>)
    ensures r == AsEnrichMap(Enriched(fetch, Queried(resolutions.data, maxIpsToEnrich)))
  {
    ghost var ips := Queried(resolutions.data, maxIpsToEnrich);
    var ipwhoisMap: map<string, IpWhois> := map[];
    var idx := 0;
    while idx < |resolutions.data|
      invariant 0 <= idx <= |ips|
      invariant Enriched(fetch, ips[..idx]) == Success(ipwhoisMap)
    {
      if idx == maxIpsToEnrich {
        break;
      }
      var ip := resolutions.data[idx];
      EnrichedSnoc(fetch, ips, idx);
      var ipwhois := GetIpWhois(fetch, ip.ipAddress);
      if ipwhois.Failure? {
        EnrichedFailureSticks(fetch, ips, idx + 1);
        return Failure(ipwhois.error);
      }
      if ipwhois.value.Some? {
        ipwhoisMap := ipwhoisMap[ipwhois.value.value.ip := ipwhois.value.value];
      }
      idx := idx + 1;
    }
    assert ips[..idx] == ips;
    return Success(IpWhoisMap(ipwhoisMap));
  }

  /** Once a lookup has failed, the later ones are never made: the run's result is that error. */
  lemma {:induction false} EnrichedFailureSticks(fetch: Fetch, ips: seq<string>, k: nat)
    requires k <= |ips| && Enriched(fetch, ips[..k]).Failure?
    ensures Enriched(fetch, ips) == Enriched(fetch, ips[..k])
    decreases |ips|
  {
    if k < |ips| {
      assert ips[..|ips| - 1][..k] == ips[..k];
      EnrichedFailureSticks(fetch, ips[..|ips| - 1], k);
    } else {
      assert ips[..k] == ips;
    }
  }

  /** `single_get_ipwhois`: the record, when found, stored under the address that was asked for. */
  function SingleGetIpWhois(fetch: Fetch, ip: string): (r: Result<EnrichMap, ClientError>)
    ensures r.Failure? <==> GetIpWhois(fetch, ip).Failure?
    ensures r.Success? ==> r.value.IpWhoisMap?
    ensures GetIpWhois(fetch, ip) == Success(None) ==> r == Success(IpWhoisMap(map[]))
    ensures GetIpWhois(fetch, ip).Success? && GetIpWhois(fetch, ip).value.Some? ==>
      r == Success(IpWhoisMap(map[ip := GetIpWhois(fetch, ip).value.value]))
  {
    match GetIpWhois(fetch, ip)
    case Failure(e) => Failure(e)
    case Success(None) => Success(IpWhoisMap(map[]))
    case Success(Some(w)) => Success(IpWhoisMap(map[ip := w]))
  }

  // ----- properties of the bulk lookup -----

  /** A cap of zero makes no request and yields the empty map. */
  lemma BulkCapZero(fetch: Fetch, resolutions: Resolutions)
    ensures AsEnrichMap(Enriched(fetch, Queried(resolutions.data, 0))) == Success(IpWhoisMap(map[]))
  {
  }

  /** A negative cap is never reached: every resolution is looked up. */
  lemma BulkNegativeCap(resolutions: Resolutions, maxIpsToEnrich: int)
    requires maxIpsToEnrich < 0
    ensures |Queried(resolutions.data, maxIpsToEnrich)| == |resolutions.data|
  {
  }

  /**
   * A successful run stores only records the service returned for one of
   * the queried addresses, each under its own "ip", and at most one key
   * per query.
   */
  lemma {:induction false} EnrichedSound(fetch: Fetch, ips: seq<string>)
    requires Enriched(fetch, ips).Success?
    ensures var m := Enriched(fetch, ips).value;
      && |m.Keys| <= |ips|
      && forall k :: k in m ==> m[k].ip == k && exists j :: 0 <= j < |ips| && GetIpWhois(fetch, ips[j]) == Success(Some(m[k]))
    decreases |ips|
  {
    if |ips| > 0 {
      var init := ips[..|ips| - 1];
      EnrichedSound(fetch, init);
      var m0 := Enriched(fetch, init).value;
      var m := Enriched(fetch, ips).value;
      forall k | k in m
        ensures m[k].ip == k && exists j :: 0 <= j < |ips| && GetIpWhois(fetch, ips[j]) == Success(Some(m[k]))
      {
        if GetIpWhois(fetch, ips[|ips| - 1]) == Success(Some(m[k])) {
        } else {
          assert k in m0 && m[k] == m0[k];
          var j :| 0 <= j < |init| && GetIpWhois(fetch, init[j]) == Success(Some(m0[k]));
          assert ips[j] == init[j];
        }
      }
      if GetIpWhois(fetch, ips[|ips| - 1]).value.Some? {
        var w := GetIpWhois(fetch, ips[|ips| - 1]).value.value;
        assert m.Keys <= m0.Keys + {w.ip};
        assert |m0.Keys + {w.ip}| <= |m0.Keys| + 1;
        SubsetCard(m.Keys, m0.Keys + {w.ip});
      }
    }
  }

  lemma SubsetCard<T>(a: set<T>, b: set<T>)
    requires a <= b
    ensures |a| <= |b|
  {
    assert b == a + (b - a);
  }

  /**
   * A successful run is complete: every record found is stored under its
   * "ip", and when several lookups return records with the same "ip", the
   * last one is kept.
   */
  lemma {:induction false} EnrichedComplete(fetch: Fetch, ips: seq<string>, j: nat)
    requires Enriched(fetch, ips).Success?
    requires j < |ips| && GetIpWhois(fetch, ips[j]).Success? && GetIpWhois(fetch, ips[j]).value.Some?
    requires var w := GetIpWhois(fetch, ips[j]).value.value;
      forall l :: j < l < |ips| && GetIpWhois(fetch, ips[l]).Success? && GetIpWhois(fetch, ips[l]).value.Some? ==>
        GetIpWhois(fetch, ips[l]).value.value.ip != w.ip
    ensures var w := GetIpWhois(fetch, ips[j]).value.value;
      w.ip in Enriched(fetch, ips).value && Enriched(fetch, ips).value[w.ip] == w
    decreases |ips|
  {
    var init := ips[..|ips| - 1];
    if j < |ips| - 1 {
      EnrichedFailureFree(fetch, ips);
      forall l | j < l < |init| ensures init[l] == ips[l] { }
      assert init[j] == ips[j];
      EnrichedComplete(fetch, init, j);
    }
  }

  /** A successful run had a successful prefix. */
  lemma EnrichedFailureFree(fetch: Fetch, ips: seq<string>)
    requires |ips| > 0 && Enriched(fetch, ips).Success?
    ensures Enriched(fetch, ips[..|ips| - 1]).Success?
    ensures GetIpWhois(fetch, ips[|ips| - 1]).Success?
  {
  }

  /**
   * The run fails exactly when some lookup fails, and then with the
   * error of the first failing lookup; no later lookup is made.
   */
  lemma {:induction false} EnrichedFailures(fetch: Fetch, ips: seq<string>)
    ensures Enriched(fetch, ips).Failure? <==> exists j :: 0 <= j < |ips| && GetIpWhois(fetch, ips[j]).Failure?
    ensures Enriched(fetch, ips).Failure? ==>
      exists j :: 0 <= j < |ips| && GetIpWhois(fetch, ips[j]) == Failure(Enriched(fetch, ips).error) &&
        forall l :: 0 <= l < j ==> GetIpWhois(fetch, ips[l]).Success?
    decreases |ips|
  {
    if |ips| > 0 {
      var init := ips[..|ips| - 1];
      EnrichedFailures(fetch, init);
      forall l | 0 <= l < |init| ensures init[l] == ips[l] { }
      if Enriched(fetch, init).Success? && GetIpWhois(fetch, ips[|ips| - 1]).Failure? {
        forall l | 0 <= l < |ips| - 1 ensures GetIpWhois(fetch, ips[l]).Success? {
          assert init[l] == ips[l];
        }
      }
      if Enriched(fetch, init).Failure? {
        var j :| 0 <= j < |init| && GetIpWhois(fetch, init[j]) == Failure(Enriched(fetch, init).error)
          && forall l :: 0 <= l < j ==> GetIpWhois(fetch, init[l]).Success?;
        assert GetIpWhois(fetch, ips[j]) == Failure(Enriched(fetch, ips).error);
      }
    }
  }

  /** The bulk and single lookups key differently: by the record's "ip", and by the address asked for. */
  lemma SingleKeysByQuery(fetch: Fetch, ip: string)
    requires SingleGetIpWhois(fetch, ip).Success?
    ensures SingleGetIpWhois(fetch, ip).value.whoisRecords.Keys <= {ip}
    ensures Enriched(fetch, [ip]).Success?
    ensures GetIpWhois(fetch, ip).value.Some? ==>
      Enriched(fetch, [ip]).value == map[GetIpWhois(fetch, ip).value.value.ip := GetIpWhois(fetch, ip).value.value]
  {
    assert [ip][..0] == [];
  }
}
