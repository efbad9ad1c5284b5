/**
 * The two report views: a domain report (VirusTotal panel, resolutions,
 * whois) and an IP report (VirusTotal panel with enrichment, whois), and
 * the ordered, None-filtered list of panels each prints.
 */
module View {
  import opened Wrappers
  import opened Seqs
  import opened RichText
  import opened Models
  import opened Base

  /** What a `DomainView` is constructed with; it never changes afterwards. */
  datatype DomainView = DomainView(
    entity: Domain, resolutions: Option<Resolutions>, whois: Whois,
    ipEnrich: EnrichMap, maxResolutions: int)

  /** What an `IpAddressView` is constructed with. */
  datatype IpAddressView = IpAddressView(entity: IpAddress, whois: Whois, ipEnrich: EnrichMap)

  function Labels(rows: seq<Row>): (names: seq<string>)
    ensures |names| == |rows|
  {
    seq(|rows|, i requires 0 <= i < |rows| => rows[i].0.name)
  }

  // ----- Per-IP enrichment projection -----

  /** Python's `s.replace('AS', '')`: one left-to-right pass removing each non-overlapping "AS". */
  function StripAS(s: string): string
    decreases |s|
  {
    if |s| < 2 then s
    else if s[0] == 'A' && s[1] == 'S' then StripAS(s[2..])
    else [s[0]] + StripAS(s[1..])
  }

  /** A string without an 'A' is left alone; so "AS" followed by digits loses exactly the prefix. */
  lemma {:induction false} StripASWithoutA(s: string)
    requires forall k :: 0 <= k < |s| ==> s[k] != 'A'
    ensures StripAS(s) == s
    decreases |s|
  {
    if |s| >= 2 {
      StripASWithoutA(s[1..]);
    }
  }

  lemma StripASPrefix(digits: string)
    requires forall k :: 0 <= k < |digits| ==> digits[k] != 'A'
    ensures StripAS("AS" + digits) == digits
  {
    assert ("AS" + digits)[2..] == digits;
    StripASWithoutA(digits);
  }

  /** No "AS" straddles a boundary after a character other than 'A', so the replacement splits there. */
  lemma {:induction false} StripASConcat(a: string, b: string)
    requires |a| == 0 || a[|a| - 1] != 'A'
    ensures StripAS(a + b) == StripAS(a) + StripAS(b)
    decreases |a|
  {
    if |a| == 0 {
      assert a + b == b;
    } else if |a| == 1 {
      if |b| > 0 {
        assert (a + b)[1..] == b;
      }
    } else if a[0] == 'A' && a[1] == 'S' {
      assert (a + b)[2..] == a[2..] + b;
      StripASConcat(a[2..], b);
    } else {
      assert (a + b)[1..] == a[1..] + b;
      StripASConcat(a[1..], b);
    }
  }

  /**
   * The replacement is a single pass: every "AS" not preceded by a dangling
   * 'A' is removed, and what is left on either side is handled on its own,
   * so removing one can leave a new "AS" behind ("AASS" becomes "AS").
   */
  lemma StripASSinglePass(a: string, b: string)
    requires |a| == 0 || a[|a| - 1] != 'A'
    ensures StripAS(a + "AS" + b) == StripAS(a) + StripAS(b)
    ensures StripAS("AASS") == "AS"
  {
    assert a + "AS" + b == a + ("AS" + b);
    StripASConcat(a, "AS" + b);
    assert ("AS" + b)[2..] == b;
    assert "AASS"[1..] == "ASS";
    assert "ASS"[2..] == "S";
  }

  /** Shodan's ASN field: absent for an empty ASN, else the ASN without "AS", then " (org)". */
  function ShodanAsn(s: ShodanIp): Option<Text>
  {
    if Truthy(s.asn) then Some(Str(StripAS(s.asn.value) + " (" + s.org + ")")) else None
  }

  function ShodanTags(s: ShodanIp, u: Utils): Option<Text>
  {
    if |s.tags| > 0 then Some(u.smartJoin(StrItems(s.tags), Some(Tags))) else None
  }

  /** The rows an enrichment record adds to an entry, by provider; `ip` is the address the Services link points at. */
  function EnrichmentRows(enrich: Option<Enrichment>, ip: string, u: Utils): (rows: seq<Row>)
    ensures enrich.None? ==> rows == []
    ensures enrich.Some? && enrich.value.FromIpWhois? ==> Labels(rows) == ["ASN:", "ISP:", "Location:"]
    ensures enrich.Some? && enrich.value.FromShodan? ==>
      Labels(rows) == ["ASN:", "ISP:", "Location:", "OS:", "Services:", "Tags:", "Last Scan:"]
    ensures enrich.Some? && enrich.value.FromShodan? ==>
      var s := enrich.value.shodan;
      && (rows[0].1.None? <==> !Truthy(s.asn))
      && (Truthy(s.asn) ==> Plain(rows[0].1.value) == StripAS(s.asn.value) + " (" + s.org + ")")
      && rows[4].0.link == Some(SHODAN_GUI_BASEURL + "/" + ip)
      && (rows[4].1.None? <==> |s.data| == 0)
      && (rows[5].1.None? <==> |s.tags| == 0)
  {
    match enrich
    case None => []
    case Some(FromIpWhois(w)) =>
      [ (Field("ASN:"), Some(Str(IntToStr(w.connection.asn) + " (" + w.connection.org + ")"))),
        (Field("ISP:"), Some(Str(w.connection.isp))),
        (Field("Location:"), Some(u.smartJoin([Some(Str(w.city)), Some(Str(w.region)), Some(Str(w.country))], None))) ]
    case Some(FromShodan(s)) =>
      ServicesLines(s, u);
      [ (Field("ASN:"), ShodanAsn(s)),
        (Field("ISP:"), OptStr(s.isp)),
        (Field("Location:"), Some(u.smartJoin([OptStr(s.city), OptStr(s.regionName), OptStr(s.countryName)], None))),
        (Field("OS:"), OptStr(s.os)),
        (Label("Services:", Some(SHODAN_GUI_BASEURL + "/" + ip)), ServicesText(s, u)),
        (Field("Tags:"), ShodanTags(s, u)),
        (Field("Last Scan:"), Some(Str(u.isoDate(Stamp(s.lastUpdate + "+00:00"))))) ]
  }

  /** The rows that only the Shodan variant has. */
  predicate ShodanOnly(name: string)
  {
    name == "OS:" || name == "Services:" || name == "Tags:" || name == "Last Scan:"
  }

  // ----- resolutions_panel -----

  function ResolutionRows(r: Resolution, m: EnrichMap, u: Utils): seq<Row>
  {
    [ (Field("Analysis:"), Some(AnalysisStats(r.ipAddressLastAnalysisStats, [], u))),
      (Field("Resolved:"), Some(Str(u.isoDate(r.date)))) ]
      + EnrichmentRows(GetIpEnrichment(m, r.ipAddress), r.ipAddress, u)
  }

  /** How each resolution's rows are chosen: fixed rows, then the enrichment for its IP. */
  function RowsOf(m: EnrichMap, u: Utils): Resolution -> seq<Row>
  {
    r => ResolutionRows(r, m, u)
  }

  /** One resolution's heading (its IP, linked to VirusTotal) over the table of its rows. */
  function EntryBlock(r: Resolution, rows: seq<Row>): Block
  {
    GenInfo(TableOf(rows), GenHeadingText(r.ipAddress, Some(VT_GUI_BASEURL_IP + "/" + r.ipAddress)))
  }

  function Entries(data: seq<Resolution>, rowsOf: Resolution -> seq<Row>): (es: seq<Block>)
    ensures |es| == |data|
  {
    seq(|data|, j requires 0 <= j < |data| => EntryBlock(data[j], rowsOf(data[j])))
  }

  function EntryParts(es: seq<Block>): (parts: seq<seq<Item>>)
    ensures |parts| == |es| && Singletons(parts)
  {
    seq(|es|, j requires 0 <= j < |es| => [Entry(es[j])])
  }

  /** What stands between two entries: a blank line, except that a negative cap never asks for one. */
  function Gap(maxResolutions: int): seq<Item>
  {
    if maxResolutions >= 0 then [Separator] else []
  }

  function FooterItems(maxResolutions: int, count: int): seq<Item>
  {
    if maxResolutions < count then [MoreFooter(count - maxResolutions)] else []
  }

  /** The entries rendered up to the cap, joined by the gap, then the footer. */
  function ResolutionItems(data: seq<Resolution>, maxResolutions: int, count: int, rowsOf: Resolution -> seq<Row>): seq<Item>
  {
    var n := Taken(maxResolutions, |data|);
    Intercalate(Gap(maxResolutions), EntryParts(Entries(data[..n], rowsOf))) + FooterItems(maxResolutions, count)
  }

  function ResolutionsPanelSpec(v: DomainView, u: Utils): Option<Panel>
  {
    match v.resolutions
    case None => None
    case Some(rs) =>
      var items := ResolutionItems(rs.data, v.maxResolutions, rs.count, RowsOf(v.ipEnrich, u));
      if |items| == 0 then None else Some(Panel("resolutions", GroupOf(items)))
  }

  /**
   * One loop step: appending entry `idx`, and a separator when the cap
   * allows one and another entry follows, keeps the items equal to the
   * first `idx + 1` entries joined, plus a trailing gap while more are due.
   */
  lemma ResolutionStep(gap: seq<Item>, es: seq<Block>, idx: nat, content: seq<Item>, sep: bool)
    requires idx < |es|
    requires gap == [] || gap == [Separator]
    requires content == Intercalate(gap, EntryParts(es[..idx])) + (if 0 < idx < |es| then gap else [])
    requires sep <==> gap != [] && idx + 1 < |es|
    ensures content + [Entry(es[idx])] + (if sep then [Separator] else [])
      == Intercalate(gap, EntryParts(es[..idx + 1])) + (if 0 < idx + 1 < |es| then gap else [])
  {
    assert EntryParts(es[..idx + 1]) == EntryParts(es[..idx]) + [[Entry(es[idx])]];
    IntercalateSnoc(gap, EntryParts(es[..idx]), [Entry(es[idx])]);
  }

  /**
   * The loop of `resolutions_panel`: one entry per resolution, stopping when
   * the index reaches the cap, a separator after each entry that is neither
   * the cap's last nor the data's last, then the "+N more" footer when the
   * cap is below the total count.
   */
  method RenderResolutions(data: seq<Resolution>, maxResolutions: int, count: int, rowsOf: Resolution -> seq<Row>)
    returns (content: seq<Item>)
    ensures content == ResolutionItems(data, maxResolutions, count, rowsOf)
  {
    ghost var n := Taken(maxResolutions, |data|);
    ghost var gap := Gap(maxResolutions);
    ghost var es := Entries(data[..n], rowsOf);
    content := [];
    var idx := 0;
    while idx < |data|
      invariant 0 <= idx <= n
      invariant content == Intercalate(gap, EntryParts(es[..idx])) + (if 0 < idx < n then gap else [])
    {
      if idx == maxResolutions {
        break;
      }
      var ip := data[idx];
      var heading := GenHeadingText(ip.ipAddress, Some(VT_GUI_BASEURL_IP + "/" + ip.ipAddress));
      var body := GenTable(rowsOf(ip));
      assert GenInfo(body, heading) == es[idx];
      var sep := idx < maxResolutions - 1 && idx < |data| - 1;
      ResolutionStep(gap, es, idx, content, sep);
      content := content + [Entry(GenInfo(body, heading))];
      if sep {
        content := content + [Separator];
      }
      idx := idx + 1;
    }
    assert idx == n;
    assert es[..idx] == es;
    if maxResolutions < count {
      content := content + [MoreFooter(count - maxResolutions)];
    }
  }

  method ResolutionsPanel(v: DomainView, u: Utils) returns (panel: Option<Panel>)
    ensures panel == ResolutionsPanelSpec(v, u)
  {
    if v.resolutions.None? {
      return None;
    }
    var rs := v.resolutions.value;
    var content := RenderResolutions(rs.data, v.maxResolutions, rs.count, RowsOf(v.ipEnrich, u));
    if |content| > 0 {
      return Some(Panel("resolutions", GroupOf(content)));
    }
    return None;
  }

  /** No panel without resolutions data, and none when neither an entry nor the footer was produced. */
  lemma ResolutionsPanelNone(v: DomainView, u: Utils)
    ensures ResolutionsPanelSpec(v, u).None? <==>
      v.resolutions.None? ||
      (Taken(v.maxResolutions, |v.resolutions.value.data|) == 0 && !(v.maxResolutions < v.resolutions.value.count))
  {
    if v.resolutions.Some? {
      var rs := v.resolutions.value;
      var n := Taken(v.maxResolutions, |rs.data|);
      var parts := EntryParts(Entries(rs.data[..n], RowsOf(v.ipEnrich, u)));
      if n > 0 {
        if v.maxResolutions >= 0 {
          IntercalateAlternates(Separator, parts);
        } else {
          IntercalateFlat(parts);
        }
      }
    }
  }

  /** The shape of `k > 0` entries joined by blank separators, then an optional footer. */
  lemma {:induction false} JoinedLayout(es: seq<Block>, footer: seq<Item>)
    requires |es| > 0
    requires footer == [] || (|footer| == 1 && footer[0].MoreFooter?)
    ensures var items := Intercalate([Separator], EntryParts(es)) + footer;
      && |items| == 2 * |es| - 1 + |footer|
      && (forall j :: 0 <= j < |es| ==> items[2 * j] == Entry(es[j]))
      && (forall j :: 0 <= j < |es| - 1 ==> items[2 * j + 1] == Separator)
      && Count(items, Separator) == |es| - 1
      && (forall j :: 0 <= j < |items| - |footer| ==> !items[j].MoreFooter?)
  {
    var parts := EntryParts(es);
    var joined := Intercalate([Separator], parts);
    IntercalateAlternates(Separator, parts);
    forall j | 0 <= j < |joined| ensures !joined[j].MoreFooter? {
      if j % 2 == 0 {
        assert joined[2 * (j / 2)] == parts[j / 2][0];
      } else {
        assert joined[2 * (j / 2) + 1] == Separator;
      }
    }
    forall j | 0 <= j < |parts| ensures Count(parts[j], Separator) == 0 {
      assert parts[j][..0] == [];
    }
    IntercalateCount(Separator, parts);
    CountConcat(joined, footer, Separator);
    if footer != [] {
      assert footer[..0] == [];
    }
  }

  /**
   * For a cap m >= 0: min(m, len) entries, the first ones in the fetched
   * order, at the even positions; a blank separator at every odd position
   * between them and none after the last; exactly one fewer separator than
   * entries; and a single "+N more" footer, N = count - m, as the last item
   * exactly when m < count.
   */
  lemma ResolutionsLayout(data: seq<Resolution>, maxResolutions: int, count: int, rowsOf: Resolution -> seq<Row>)
    requires maxResolutions >= 0
    ensures var items := ResolutionItems(data, maxResolutions, count, rowsOf);
      var k := if maxResolutions < |data| then maxResolutions else |data|;
      var footer := if maxResolutions < count then 1 else 0;
      && (k > 0 ==> |items| == 2 * k - 1 + footer)
      && (k == 0 ==> |items| == footer)
      && (forall j :: 0 <= j < k ==> items[2 * j] == Entry(EntryBlock(data[j], rowsOf(data[j]))))
      && (forall j :: 0 <= j < k - 1 ==> items[2 * j + 1] == Separator)
      && (k > 0 ==> Count(items, Separator) == k - 1)
      && (maxResolutions < count <==> |items| > 0 && items[|items| - 1] == MoreFooter(count - maxResolutions))
      && (forall j :: 0 <= j < |items| - footer ==> !items[j].MoreFooter?)
  {
    var n := Taken(maxResolutions, |data|);
    var es := Entries(data[..n], rowsOf);
    if n > 0 {
      JoinedLayout(es, FooterItems(maxResolutions, count));
    }
  }

  /** A negative cap never fires: every fetched resolution is rendered, in order, with no separators. */
  lemma ResolutionsNegativeCap(data: seq<Resolution>, maxResolutions: int, count: int, rowsOf: Resolution -> seq<Row>)
    requires maxResolutions < 0
    ensures var items := ResolutionItems(data, maxResolutions, count, rowsOf);
      && (|items| == |data| + 1 <==> maxResolutions < count)
      && |items| >= |data|
      && (forall j :: 0 <= j < |data| ==> items[j] == Entry(EntryBlock(data[j], rowsOf(data[j]))))
      && (maxResolutions < count ==> items[|data|] == MoreFooter(count - maxResolutions))
  {
    assert data[..|data|] == data;
    IntercalateFlat(EntryParts(Entries(data, rowsOf)));
  }

  /** Without enrichment for its IP, an entry's rows are exactly Analysis and Resolved, in that order. */
  lemma UnenrichedEntryRows(r: Resolution, m: EnrichMap, u: Utils)
    requires r.ipAddress !in EnrichedIps(m)
    ensures Labels(ResolutionRows(r, m, u)) == ["Analysis:", "Resolved:"]
  {
  }

  /** An ipwhois enrichment can never put OS, Services, Tags or Last Scan into an entry. */
  lemma ResolutionVariantIsolation(r: Resolution, m: EnrichMap, u: Utils)
    requires m.IpWhoisMap?
    ensures forall name :: name in Labels(ResolutionRows(r, m, u)) ==> !ShodanOnly(name)
  {
    var rows := ResolutionRows(r, m, u);
    assert Labels(rows) == ["Analysis:", "Resolved:"] + Labels(EnrichmentRows(GetIpEnrichment(m, r.ipAddress), r.ipAddress, u));
  }

  // ----- domain_panel and ip_panel -----

  /** Some row of a rendered table carries the field name `name`. */
  predicate HasField(rows: seq<(Label, Text)>, name: string)
  {
    exists i :: 0 <= i < |rows| && rows[i].0.name == name
  }

  /** The six rows of the virustotal panel, from their already rendered values. */
  function DomainTable(analysis: Text, reputation: Text, popularity: Option<Text>, categories: Option<Text>,
                       lastModified: string, lastSeen: string): seq<Row>
  {
    [ (Field("Analysis:"), Some(analysis)),
      (Field("Reputation:"), Some(reputation)),
      (Field("Popularity:"), popularity),
      (Field("Categories:"), categories),
      (Field("Last Modified:"), Some(Str(lastModified))),
      (Field("Last Seen:"), Some(Str(lastSeen))) ]
  }

  function Categories(categories: seq<string>, u: Utils): Option<Text>
  {
    if |categories| > 0 then Some(u.smartJoin(StrItems(categories), Some(Tags))) else None
  }

  function DomainRows(d: Domain, u: Utils): seq<Row>
  {
    var a := d.attributes;
    DomainTable(AnalysisStats(a.lastAnalysisStats, Flagged(a.lastAnalysisResults), u), Reputation(a.reputation),
      PopularityText(a.popularityRanks), Categories(a.categories, u),
      u.isoDate(a.lastModificationDate), u.isoDate(a.lastDnsRecordsDate))
  }

  /** The "virustotal" panel: the domain, linked to VirusTotal, over its table. */
  function DomainPanel(v: DomainView, u: Utils): Panel
  {
    var heading := GenHeadingText(v.entity.id, Some(VT_GUI_BASEURL_DOMAIN + "/" + v.entity.id));
    Panel("virustotal", Of(GenInfo(TableOf(DomainRows(v.entity, u)), heading)))
  }

  /** The three fixed rows of the ip panel, from their already rendered values, then the enrichment rows. */
  function IpTable(analysis: Text, reputation: Text, lastModified: string, enrichment: seq<Row>): seq<Row>
  {
    [ (Field("Analysis:"), Some(analysis)),
      (Field("Reputation:"), Some(reputation)),
      (Field("Last Modified:"), Some(Str(lastModified))) ]
      + enrichment
  }

  function IpRows(ip: IpAddress, m: EnrichMap, u: Utils): seq<Row>
  {
    var a := ip.attributes;
    IpTable(AnalysisStats(a.lastAnalysisStats, Flagged(a.lastAnalysisResults), u), Reputation(a.reputation),
      u.isoDate(a.lastModificationDate), EnrichmentRows(GetIpEnrichment(m, ip.id), ip.id, u))
  }

  /** The "ip" panel: the address, linked to VirusTotal, over its table. */
  function IpPanel(v: IpAddressView, u: Utils): Panel
  {
    var heading := GenHeadingText(v.entity.id, Some(VT_GUI_BASEURL_IP + "/" + v.entity.id));
    Panel("ip", Of(GenInfo(TableOf(IpRows(v.entity, v.ipEnrich, u)), heading)))
  }

  /** Analysis and reputation always render as text, so they always head the table, in that order. */
  lemma LeadingRowsKept(rows: seq<Row>, analysis: Text, reputation: Text)
    requires |rows| >= 2
    requires rows[0] == (Field("Analysis:"), Some(analysis)) && Plain(analysis) != ""
    requires rows[1] == (Field("Reputation:"), Some(reputation)) && Plain(reputation) != ""
    ensures var kept := Kept(rows);
      |kept| >= 2 && kept[0] == (Field("Analysis:"), analysis) && kept[1] == (Field("Reputation:"), reputation)
  {
    KeptConcat(rows[..2], rows[2..]);
    assert rows == rows[..2] + rows[2..];
    assert rows[..2][..1] == [rows[0]];
    assert [rows[0]][..0] == [];
  }

  /** A kept row carries one of the labels that were given. */
  lemma KeptLabels(rows: seq<Row>, name: string)
    requires HasField(Kept(rows), name)
    ensures name in Labels(rows)
  {
    KeptExactly(rows);
    var kept := Kept(rows);
    var i :| 0 <= i < |kept| && kept[i].0.name == name;
    assert kept[i] in kept;
    var j :| 0 <= j < |rows| && rows[j].0 == kept[i].0 && rows[j].1 == Some(kept[i].1) && Plain(kept[i].1) != "";
    assert Labels(rows)[j] == name;
  }

  /** A field name given once is in the table exactly when its value is shown. */
  lemma UniqueFieldHas(rows: seq<Row>, i: nat, name: string)
    requires i < |rows| && rows[i].0 == Field(name)
    requires forall j :: 0 <= j < |rows| && j != i ==> rows[j].0.name != name
    ensures HasField(Kept(rows), name) <==> Shown(rows[i].1)
  {
    var kept := Kept(rows);
    KeptExactly(rows);
    if Shown(rows[i].1) {
      var t := rows[i].1.value;
      assert (Field(name), t) in kept by {
        assert rows[i].0 == (Field(name), t).0 && rows[i].1 == Some((Field(name), t).1);
      }
      var k :| 0 <= k < |kept| && kept[k] == (Field(name), t);
      assert kept[k].0.name == name;
    }
  }

  /** The virustotal table: analysis then reputation first; popularity and categories only when shown. */
  lemma DomainTableKept(analysis: Text, reputation: Text, popularity: Option<Text>, categories: Option<Text>,
                        lastModified: string, lastSeen: string)
    requires Plain(analysis) != "" && Plain(reputation) != ""
    ensures var kept := Kept(DomainTable(analysis, reputation, popularity, categories, lastModified, lastSeen));
      && |kept| >= 2
      && kept[0] == (Field("Analysis:"), analysis)
      && kept[1] == (Field("Reputation:"), reputation)
      && (HasField(kept, "Popularity:") <==> Shown(popularity))
      && (HasField(kept, "Categories:") <==> Shown(categories))
  {
    var rows := DomainTable(analysis, reputation, popularity, categories, lastModified, lastSeen);
    LeadingRowsKept(rows, analysis, reputation);
    UniqueFieldHas(rows, 2, "Popularity:");
    UniqueFieldHas(rows, 3, "Categories:");
  }

  /** The analysis text is never empty: it starts with "m/t malicious". */
  lemma AnalysisShown(stats: LastAnalysisStats, vendors: seq<string>, u: Utils)
    ensures Plain(AnalysisStats(stats, vendors, u)) != ""
  {
  }

  /** The popularity value is shown exactly when the domain has ranks. */
  lemma PopularityShown(ranks: Dict<int>)
    ensures Shown(PopularityText(ranks)) <==> |ranks| > 0
  {
    PopularityLines(ranks);
    if |ranks| > 0 {
      var lines := seq(|ranks|, j requires 0 <= j < |ranks| => ranks[j].0 + " (" + IntToStr(ranks[j].1) + ")");
      IntercalateStartsWith("\n", lines);
    }
  }

  /** The virustotal panel of a domain always starts with the analysis, then the reputation. */
  lemma DomainPanelRows(v: DomainView, u: Utils)
    ensures var a := v.entity.attributes;
      var p := DomainPanel(v, u);
      var rows := PanelRows(Some(p));
      && p.title == "virustotal"
      && |rows| >= 2
      && rows[0] == (Field("Analysis:"), AnalysisStats(a.lastAnalysisStats, Flagged(a.lastAnalysisResults), u))
      && rows[1] == (Field("Reputation:"), Reputation(a.reputation))
  {
    var a := v.entity.attributes;
    AnalysisShown(a.lastAnalysisStats, Flagged(a.lastAnalysisResults), u);
    IntToStrRoundTrip(a.reputation);
    TablePanelRows("virustotal", DomainRows(v.entity, u), GenHeadingText(v.entity.id, Some(VT_GUI_BASEURL_DOMAIN + "/" + v.entity.id)));
    DomainTableKept(AnalysisStats(a.lastAnalysisStats, Flagged(a.lastAnalysisResults), u), Reputation(a.reputation),
      PopularityText(a.popularityRanks), Categories(a.categories, u),
      u.isoDate(a.lastModificationDate), u.isoDate(a.lastDnsRecordsDate));
  }

  /** The virustotal panel shows popularity exactly when the domain has ranks, and no categories row without categories. */
  lemma DomainPanelOptionalRows(v: DomainView, u: Utils)
    ensures var a := v.entity.attributes;
      var rows := PanelRows(Some(DomainPanel(v, u)));
      && (HasField(rows, "Popularity:") <==> |a.popularityRanks| > 0)
      && (|a.categories| == 0 ==> !HasField(rows, "Categories:"))
  {
    var a := v.entity.attributes;
    AnalysisShown(a.lastAnalysisStats, Flagged(a.lastAnalysisResults), u);
    IntToStrRoundTrip(a.reputation);
    PopularityShown(a.popularityRanks);
    TablePanelRows("virustotal", DomainRows(v.entity, u), GenHeadingText(v.entity.id, Some(VT_GUI_BASEURL_DOMAIN + "/" + v.entity.id)));
    DomainTableKept(AnalysisStats(a.lastAnalysisStats, Flagged(a.lastAnalysisResults), u), Reputation(a.reputation),
      PopularityText(a.popularityRanks), Categories(a.categories, u),
      u.isoDate(a.lastModificationDate), u.isoDate(a.lastDnsRecordsDate));
  }

  /** The ip table: analysis then reputation first; no field that is not among the given labels. */
  lemma IpTableKept(analysis: Text, reputation: Text, lastModified: string, enrichment: seq<Row>)
    requires Plain(analysis) != "" && Plain(reputation) != ""
    ensures var rows := IpTable(analysis, reputation, lastModified, enrichment);
      var kept := Kept(rows);
      && Labels(rows) == ["Analysis:", "Reputation:", "Last Modified:"] + Labels(enrichment)
      && |kept| >= 2
      && kept[0] == (Field("Analysis:"), analysis)
      && kept[1] == (Field("Reputation:"), reputation)
      && forall name :: HasField(kept, name) ==> name in Labels(rows)
  {
    var rows := IpTable(analysis, reputation, lastModified, enrichment);
    LeadingRowsKept(rows, analysis, reputation);
    forall name | HasField(Kept(rows), name) ensures name in Labels(rows) {
      KeptLabels(rows, name);
    }
  }

  /**
   * The ip panel: analysis, reputation and last-modified rows, then the
   * enrichment rows of the address's own provider record; analysis and
   * reputation always head the table.
   */
  lemma IpPanelRows(v: IpAddressView, u: Utils)
    ensures var a := v.entity.attributes;
      var given := IpRows(v.entity, v.ipEnrich, u);
      var enrich := GetIpEnrichment(v.ipEnrich, v.entity.id);
      var rows := PanelRows(Some(IpPanel(v, u)));
      && IpPanel(v, u).title == "ip"
      && Labels(given) == ["Analysis:", "Reputation:", "Last Modified:"] + Labels(EnrichmentRows(enrich, v.entity.id, u))
      && (v.entity.id !in EnrichedIps(v.ipEnrich) ==> Labels(given) == ["Analysis:", "Reputation:", "Last Modified:"])
      && |rows| >= 2
      && rows[0] == (Field("Analysis:"), AnalysisStats(a.lastAnalysisStats, Flagged(a.lastAnalysisResults), u))
      && rows[1] == (Field("Reputation:"), Reputation(a.reputation))
  {
    var a := v.entity.attributes;
    AnalysisShown(a.lastAnalysisStats, Flagged(a.lastAnalysisResults), u);
    IntToStrRoundTrip(a.reputation);
    var enrichment := EnrichmentRows(GetIpEnrichment(v.ipEnrich, v.entity.id), v.entity.id, u);
    TablePanelRows("ip", IpRows(v.entity, v.ipEnrich, u), GenHeadingText(v.entity.id, Some(VT_GUI_BASEURL_IP + "/" + v.entity.id)));
    IpTableKept(AnalysisStats(a.lastAnalysisStats, Flagged(a.lastAnalysisResults), u), Reputation(a.reputation),
      u.isoDate(a.lastModificationDate), enrichment);
  }

  /** A panel over a table shows exactly the table's kept rows. */
  lemma TablePanelRows(title: string, rows: seq<Row>, heading: Title)
    ensures PanelRows(Some(Panel(title, Of(GenInfo(TableOf(rows), heading))))) == Kept(rows)
  {
  }

  /** An ip table with no enrichment or the ipwhois labels never shows a Shodan-only field. */
  lemma IpTableVariantIsolation(analysis: Text, reputation: Text, lastModified: string, enrichment: seq<Row>, name: string)
    requires Labels(enrichment) == [] || Labels(enrichment) == ["ASN:", "ISP:", "Location:"]
    requires ShodanOnly(name)
    ensures !HasField(Kept(IpTable(analysis, reputation, lastModified, enrichment)), name)
  {
    var rows := IpTable(analysis, reputation, lastModified, enrichment);
    assert Labels(rows) == ["Analysis:", "Reputation:", "Last Modified:"] + Labels(enrichment);
    if HasField(Kept(rows), name) {
      KeptLabels(rows, name);
    }
  }

  /** With ipwhois enrichment, the ip panel never shows OS, Services, Tags or Last Scan. */
  lemma IpPanelVariantIsolation(v: IpAddressView, u: Utils, name: string)
    requires v.ipEnrich.IpWhoisMap? && ShodanOnly(name)
    ensures !HasField(PanelRows(Some(IpPanel(v, u))), name)
  {
    var a := v.entity.attributes;
    var enrich := GetIpEnrichment(v.ipEnrich, v.entity.id);
    var enrichment := EnrichmentRows(enrich, v.entity.id, u);
    assert Labels(enrichment) == [] || Labels(enrichment) == ["ASN:", "ISP:", "Location:"];
    TablePanelRows("ip", IpRows(v.entity, v.ipEnrich, u), GenHeadingText(v.entity.id, Some(VT_GUI_BASEURL_IP + "/" + v.entity.id)));
    IpTableVariantIsolation(AnalysisStats(a.lastAnalysisStats, Flagged(a.lastAnalysisResults), u), Reputation(a.reputation),
      u.isoDate(a.lastModificationDate), enrichment, name);
  }

  // ----- print -----

  /** What the console is given: one group led by a blank line, or the panels side by side. */
  datatype Renderable = BlankLine | Boxed(panel: Panel)
  datatype Screen = OneColumn(group: seq<Renderable>) | Columns(panels: seq<Panel>)

  /** The panels that are not None, in their order. */
  function Present(ps: seq<Option<Panel>>): seq<Panel>
    decreases |ps|
  {
    if |ps| == 0 then []
    else Present(ps[..|ps| - 1]) + (if ps[|ps| - 1].Some? then [ps[|ps| - 1].value] else [])
  }

  /** Filtering keeps order over concatenation, and keeps exactly the present panels. */
  lemma {:induction false} PresentConcat(a: seq<Option<Panel>>, b: seq<Option<Panel>>)
    ensures Present(a + b) == Present(a) + Present(b)
    decreases |b|
  {
    if |b| == 0 {
      assert a + b == a;
    } else {
      assert (a + b)[..|a + b| - 1] == a + b[..|b| - 1];
      PresentConcat(a, b[..|b| - 1]);
    }
  }

  lemma {:induction false} PresentExactly(ps: seq<Option<Panel>>)
    ensures |Present(ps)| <= |ps|
    ensures forall p :: p in Present(ps) <==> Some(p) in ps
    decreases |ps|
  {
    if |ps| > 0 {
      PresentExactly(ps[..|ps| - 1]);
      assert ps == ps[..|ps| - 1] + [ps[|ps| - 1]];
    }
  }

  function Opt(o: Option<Panel>): (r: seq<Panel>)
    ensures |r| <= 1
  {
    if o.Some? then [o.value] else []
  }

  lemma PresentTwo(a: Option<Panel>, b: Option<Panel>)
    ensures Present([a, b]) == Opt(a) + Opt(b)
  {
    assert [a, b][..1] == [a];
    assert [a][..0] == [];
    assert Present([a]) == Present([]) + Opt(a);
    assert Present([a, b]) == Present([a]) + Opt(b);
  }

  lemma PresentThree(a: Option<Panel>, b: Option<Panel>, c: Option<Panel>)
    ensures Present([a, b, c]) == Opt(a) + Opt(b) + Opt(c)
  {
    assert [a, b, c][..2] == [a, b];
    PresentTwo(a, b);
    assert Present([a, b, c]) == Present([a, b]) + Opt(c);
  }

  function Layout(panels: seq<Panel>, oneColumn: bool): (s: Screen)
    ensures oneColumn ==> s.OneColumn? && |s.group| == |panels| + 1 && s.group[0] == BlankLine
    ensures oneColumn ==> forall i :: 0 <= i < |panels| ==> s.group[i + 1] == Boxed(panels[i])
    ensures !oneColumn ==> s == Columns(panels)
  {
    if oneColumn then OneColumn([BlankLine] + seq(|panels|, i requires 0 <= i < |panels| => Boxed(panels[i])))
    else Columns(panels)
  }

  /**
   * The domain report: the virustotal panel first, then the resolutions
   * panel and the whois panel, each only when it exists.
   */
  method DomainPrint(v: DomainView, u: Utils, oneColumn: bool) returns (screen: Screen)
    ensures screen == Layout([DomainPanel(v, u)] + Opt(ResolutionsPanelSpec(v, u)) + Opt(WhoisPanel(v.whois, u)), oneColumn)
  {
    var domain := DomainPanel(v, u);
    var resolutions := ResolutionsPanel(v, u);
    var whois := WhoisPanel(v.whois, u);
    PresentThree(Some(domain), resolutions, whois);
    var renderables := Present([Some(domain), resolutions, whois]);
    screen := Layout(renderables, oneColumn);
  }

  /** The ip report: the ip panel first, then the whois panel when it exists. */
  function IpPrint(v: IpAddressView, u: Utils, oneColumn: bool): (screen: Screen)
    ensures screen == Layout([IpPanel(v, u)] + Opt(WhoisPanel(v.whois, u)), oneColumn)
  {
    PresentTwo(Some(IpPanel(v, u)), WhoisPanel(v.whois, u));
    Layout(Present([Some(IpPanel(v, u)), WhoisPanel(v.whois, u)]), oneColumn)
  }
}
