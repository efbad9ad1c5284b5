/**
 * The records the views read: VirusTotal entities and resolutions, the two
 * IP-enrichment record shapes (ipwhois and Shodan), and the two whois shapes
 * (PassiveTotal and VirusTotal's historical whois). Their parsing from JSON
 * is not modelled; field types are the ones the views rely on.
 */
module Models {
  import opened Wrappers
  import opened RichText

  /** Two entries of an association list never share a key. */
  predicate DistinctKeys<V>(d: seq<(string, V)>)
  {
    forall i, j :: 0 <= i < j < |d| ==> d[i].0 != d[j].0
  }

  /** A Python dict, as its items in iteration (insertion) order. */
  type Dict<V> = d: seq<(string, V)> | DistinctKeys(d) witness []

  /** A date as the APIs deliver it: epoch seconds or an ISO-like string. */
  datatype Timestamp = Epoch(seconds: int) | Stamp(text: string)

  datatype LastAnalysisStats = LastAnalysisStats(
    harmless: int, malicious: int, suspicious: int, timeout: int, undetected: int)

  /** One vendor's verdict in `last_analysis_results`. */
  datatype AnalysisResult = AnalysisResult(category: string)

  datatype DomainAttributes = DomainAttributes(
    lastAnalysisStats: LastAnalysisStats,
    lastAnalysisResults: Dict<AnalysisResult>,
    reputation: int,
    popularityRanks: Dict<int>,
    categories: seq<string>,
    lastModificationDate: Timestamp,
    lastDnsRecordsDate: Timestamp)

  /** A VirusTotal domain object (`entity.data`). */
  datatype Domain = Domain(id: string, attributes: DomainAttributes)

  datatype IpAddressAttributes = IpAddressAttributes(
    lastAnalysisStats: LastAnalysisStats,
    lastAnalysisResults: Dict<AnalysisResult>,
    reputation: int,
    lastModificationDate: Timestamp)

  /** A VirusTotal IP address object (`entity.data`). */
  datatype IpAddress = IpAddress(id: string, attributes: IpAddressAttributes)

  /** One historical resolution of the domain. */
  datatype Resolution = Resolution(
    ipAddress: string, ipAddressLastAnalysisStats: LastAnalysisStats, date: Timestamp)

  /** The fetched resolutions and `meta.count`, the total the API knows of. */
  datatype Resolutions = Resolutions(data: seq<Resolution>, count: int)

  datatype Connection = Connection(asn: int, org: string, isp: string)

  /** An ipwho.is record. */
  datatype IpWhois = IpWhois(
    ip: string, connection: Connection, city: string, region: string, country: string)

  datatype ShodanPort = ShodanPort(port: int, transport: string)

  /** A Shodan host record. */
  datatype ShodanIp = ShodanIp(
    asn: Option<string>, org: string, isp: Option<string>,
    city: Option<string>, regionName: Option<string>, countryName: Option<string>,
    os: Option<string>, tags: seq<string>, data: seq<ShodanPort>, lastUpdate: string)

  /** The enrichment of one run: every record comes from the one configured provider. */
  datatype EnrichMap =
    | IpWhoisMap(whoisRecords: map<string, IpWhois>)
    | ShodanIpMap(shodanRecords: map<string, ShodanIp>)

  /** One enrichment record, tagged with its provider. */
  datatype Enrichment = FromIpWhois(whois: IpWhois) | FromShodan(shodan: ShodanIp)

  function EnrichedIps(m: EnrichMap): set<string>
  {
    match m
    case IpWhoisMap(r) => r.Keys
    case ShodanIpMap(r) => r.Keys
  }

  datatype Registrant = Registrant(
    telephone: Option<string>, street: Option<string>, city: Option<string>,
    state: Option<string>, country: Option<string>)

  /** PassiveTotal's full whois record. */
  datatype PtWhois = PtWhois(
    domain: string, registrar: Option<string>, organization: Option<string>,
    name: Option<string>, contactEmail: Option<string>, registrant: Registrant,
    nameServers: seq<string>, registered: Timestamp, registryUpdatedAt: Timestamp,
    expiresAt: Timestamp)

  /** The `whois_map` of a VirusTotal historical whois entry. */
  datatype WhoisMap = WhoisMap(
    domain: Option<string>, route: Option<string>, registrar: Option<string>,
    registrantOrg: Option<string>, registrantName: Option<string>,
    registrantEmail: Option<string>, adminCity: Option<string>,
    adminState: Option<string>, adminCountry: Option<string>,
    nameServers: Option<seq<string>>,
    creationDate: Option<string>, registeredOn: Option<string>,
    updatedDate: Option<string>, lastUpdated: Option<string>,
    expiryDate: Option<string>, expiryDateAlt: Option<string>)

  /** The attributes of one historical whois entry, latest first. */
  datatype HistoricalWhoisEntry = HistoricalWhoisEntry(
    whoisMap: Option<WhoisMap>, registrantCountry: Option<string>)

  datatype Whois = Pt(pt: PtWhois) | Historical(data: seq<HistoricalWhoisEntry>)

  /**
   * Collaborators whose code is not part of this model, as plain functions:
   * `smart_join(*items, style=...)`, `iso_date(...)` and
   * `ShodanIp.group_ports_by_product()` (product name to its ports).
   */
  datatype Utils = Utils(
    smartJoin: (seq<Option<Text>>, Option<Style>) -> Text,
    isoDate: Timestamp -> string,
    groupPortsByProduct: seq<ShodanPort> -> Dict<seq<ShodanPort>>)
}
