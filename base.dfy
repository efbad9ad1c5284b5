/**
 * The helpers every view shares (`BaseView` in the source): the vendor
 * filter, the table builder that drops empty values, the analysis,
 * reputation, popularity and Shodan-services texts, the enrichment lookup
 * and the whois panel.
 */
module Base {
  import opened Wrappers
  import opened Seqs
  import opened RichText
  import opened Models

  const VT_GUI_BASEURL_DOMAIN := "https://virustotal.com/gui/domain"
  const VT_GUI_BASEURL_IP := "https://virustotal.com/gui/ip-address"
  const PT_GUI_BASEURL := "https://community.riskiq.com/search"
  const SHODAN_GUI_BASEURL := "https://www.shodan.io/host"

  /** The separator the multi-line texts put between their lines. */
  const NEWLINE: seq<Span> := [Span("\n", None)]

  // ----- _vendors_who_flagged_malicious -----

  /** The keys whose verdict is "malicious", in iteration order. */
  function Flagged(results: seq<(string, AnalysisResult)>): seq<string>
    decreases |results|
  {
    if |results| == 0 then []
    else
      var last := results[|results| - 1];
      Flagged(results[..|results| - 1]) + (if last.1.category == "malicious" then [last.0] else [])
  }

  method VendorsWhoFlaggedMalicious(results: Dict<AnalysisResult>) returns (vendors: seq<string>)
    ensures vendors == Flagged(results)
    ensures forall v :: v in vendors <==>
      exists i :: 0 <= i < |results| && results[i].0 == v && results[i].1.category == "malicious"
  {
    vendors := [];
    var i := 0;
    while i < |results|
      invariant 0 <= i <= |results|
      invariant vendors == Flagged(results[..i])
    {
      var (key, result) := results[i];
      if result.category == "malicious" {
        vendors := vendors + [key];
      }
      assert results[..i + 1][..i] == results[..i];
      i := i + 1;
    }
    assert results[..i] == results;
    FlaggedExactly(results);
  }

  /** A vendor is listed exactly when some entry under its key says "malicious". */
  lemma {:induction false} FlaggedExactly(results: seq<(string, AnalysisResult)>)
    ensures forall v :: v in Flagged(results) <==>
      exists i :: 0 <= i < |results| && results[i].0 == v && results[i].1.category == "malicious"
    decreases |results|
  {
    if |results| > 0 {
      var init := results[..|results| - 1];
      FlaggedExactly(init);
      forall v | v in Flagged(results)
        ensures exists i :: 0 <= i < |results| && results[i].0 == v && results[i].1.category == "malicious"
      {
        if v in Flagged(init) {
          var i :| 0 <= i < |init| && init[i].0 == v && init[i].1.category == "malicious";
          assert results[i] == init[i];
        }
      }
    }
  }

  /** The filter keeps iteration order: the vendors of a concatenation are the concatenated vendors. */
  lemma {:induction false} FlaggedConcat(a: seq<(string, AnalysisResult)>, b: seq<(string, AnalysisResult)>)
    ensures Flagged(a + b) == Flagged(a) + Flagged(b)
    decreases |b|
  {
    if |b| == 0 {
      assert a + b == a;
    } else {
      assert (a + b)[..|a + b| - 1] == a + b[..|b| - 1];
      FlaggedConcat(a, b[..|b| - 1]);
    }
  }

  // ----- _gen_table -----

  /** A value the table renders: present, and not rendering as the empty string. */
  predicate Shown(value: Option<Text>)
  {
    value.Some? && Plain(value.value) != ""
  }

  /** The rows a table keeps, in order, with their values unwrapped. */
  function Kept(rows: seq<Row>): seq<(Label, Text)>
    decreases |rows|
  {
    if |rows| == 0 then []
    else
      var last := rows[|rows| - 1];
      Kept(rows[..|rows| - 1]) + (if Shown(last.1) then [(last.0, last.1.value)] else [])
  }

  /** The table of the kept rows, or the empty-string sentinel when none is kept. */
  function TableOf(rows: seq<Row>): Table
  {
    if |Kept(rows)| > 0 then Grid(Kept(rows)) else NoRows
  }

  method GenTable(rows: seq<Row>) returns (table: Table)
    ensures table == TableOf(rows)
  {
    var grid: seq<(Label, Text)> := [];
    var validRows := 0;
    var i := 0;
    while i < |rows|
      invariant 0 <= i <= |rows|
      invariant grid == Kept(rows[..i])
      invariant validRows == |grid|
    {
      var (field, value) := rows[i];
      assert rows[..i + 1][..i] == rows[..i];
      if value.None? || Plain(value.value) == "" {
        i := i + 1;
        continue;
      }
      grid := grid + [(field, value.value)];
      validRows := validRows + 1;
      i := i + 1;
    }
    assert rows[..i] == rows;
    table := if validRows > 0 then Grid(grid) else NoRows;
  }

  /** Filtering distributes over concatenation: the kept rows keep their order. */
  lemma {:induction false} KeptConcat(a: seq<Row>, b: seq<Row>)
    ensures Kept(a + b) == Kept(a) + Kept(b)
    decreases |b|
  {
    if |b| == 0 {
      assert a + b == a;
    } else {
      assert (a + b)[..|a + b| - 1] == a + b[..|b| - 1];
      KeptConcat(a, b[..|b| - 1]);
    }
  }

  /** A row is in the table exactly when it was given with a shown value; the table is empty exactly when none was. */
  lemma {:induction false} KeptExactly(rows: seq<Row>)
    ensures forall p :: p in Kept(rows) <==>
      exists i :: 0 <= i < |rows| && rows[i].0 == p.0 && rows[i].1 == Some(p.1) && Plain(p.1) != ""
    ensures TableOf(rows) == NoRows <==> forall i :: 0 <= i < |rows| ==> !Shown(rows[i].1)
    decreases |rows|
  {
    if |rows| > 0 {
      var init := rows[..|rows| - 1];
      KeptExactly(init);
      forall p | p in Kept(rows)
        ensures exists i :: 0 <= i < |rows| && rows[i].0 == p.0 && rows[i].1 == Some(p.1) && Plain(p.1) != ""
      {
        if p in Kept(init) {
          var i :| 0 <= i < |init| && init[i].0 == p.0 && init[i].1 == Some(p.1) && Plain(p.1) != "";
          assert rows[i] == init[i];
        }
      }
      forall i | 0 <= i < |rows| && Shown(rows[i].1) ensures |Kept(rows)| > 0 {
        if i < |init| {
          assert init[i] == rows[i];
        }
      }
      if |Kept(rows)| > 0 && |Kept(init)| == 0 {
        assert Shown(rows[|rows| - 1].1);
      }
    }
  }

  // ----- _gen_heading_text, _gen_info, _gen_panel -----

  function GenHeadingText(heading: string, hyperlink: Option<string>): Title
  {
    Title(heading, hyperlink)
  }

  /** `Group(heading, body)` when the heading is truthy (a `Text` with characters), else the body. */
  function GenInfo(body: Table, heading: Title): (b: Block)
    ensures b.body == body
    ensures b.Headed? <==> heading.text != ""
    ensures b.Headed? ==> b.title == heading
  {
    if heading.text != "" then Headed(heading, body) else Bare(body)
  }

  // ----- _gen_vt_analysis_stats -----

  /** Every verdict category counted. */
  function Total(stats: LastAnalysisStats): int
  {
    stats.harmless + stats.malicious + stats.suspicious + stats.timeout + stats.undetected
  }

  function Summary(stats: LastAnalysisStats): string
  {
    IntToStr(stats.malicious) + "/" + IntToStr(Total(stats)) + " malicious"
  }

  function VendorItems(vendors: seq<string>): seq<Option<Text>>
  {
    seq(|vendors|, k requires 0 <= k < |vendors| => Some(Str(vendors[k])))
  }

  /** "m/t malicious", in the error style when a vendor flagged it, then the vendors on a line of their own. */
  function AnalysisStats(stats: LastAnalysisStats, vendors: seq<string>, u: Utils): (t: Text)
    ensures t.style == Some(if stats.malicious >= 1 then Error else Info)
    ensures vendors == [] ==> Plain(t) == Summary(stats)
    ensures vendors != [] ==>
      Plain(t) == Summary(stats) + "\n" + Plain(u.smartJoin(VendorItems(vendors), Some(VendorList)))
  {
    var style := if stats.malicious >= 1 then Error else Info;
    var text := Styled(Summary(stats), style);
    AppendPlain(text, "\n", None);
    AppendTextPlain(Append(text, "\n", None), u.smartJoin(VendorItems(vendors), Some(VendorList)));
    if vendors != [] then
      AppendText(Append(text, "\n", None), u.smartJoin(VendorItems(vendors), Some(VendorList)))
    else
      text
  }

  /** The first index of `c` in `s`, or |s|. */
  function IndexOf(s: string, c: char): (k: nat)
    ensures k <= |s|
    ensures k < |s| ==> s[k] == c
    ensures forall j :: 0 <= j < k ==> s[j] != c
    decreases |s|
  {
    if |s| == 0 then 0 else if s[0] == c then 0 else 1 + IndexOf(s[1..], c)
  }

  /** Reads "m/t malicious" at the start of a text back into (m, t). */
  function ReadSummary(s: string): Option<(int, int)>
  {
    var k := IndexOf(s, '/');
    if k == |s| then None
    else
      var rest := s[k + 1..];
      var j := IndexOf(rest, ' ');
      if j + 10 > |rest| || rest[j..j + 10] != " malicious" then None
      else
        match (ParseInt(s[..k]), ParseInt(rest[..j]))
        case (Some(m), Some(t)) => Some((m, t))
        case _ => None
  }

  lemma IndexOfFirst(a: string, c: char, b: string)
    requires forall j :: 0 <= j < |a| ==> a[j] != c
    ensures IndexOf(a + [c] + b, c) == |a|
  {
    var s := a + [c] + b;
    assert s[|a|] == c;
  }

  /** "a/b malicious…" splits at the first '/' and the first space after it. */
  lemma ReadSummaryParts(ms: string, ts: string, tail: string)
    requires forall j :: 0 <= j < |ms| ==> ms[j] != '/'
    requires forall j :: 0 <= j < |ts| ==> ts[j] != ' '
    ensures ReadSummary(ms + "/" + ts + " malicious" + tail) ==
      match (ParseInt(ms), ParseInt(ts))
      case (Some(m), Some(t)) => Some((m, t))
      case _ => None
  {
    var s := ms + "/" + ts + " malicious" + tail;
    var after := ts + " malicious" + tail;
    assert s == ms + ['/'] + after;
    IndexOfFirst(ms, '/', after);
    assert s[|ms| + 1..] == after;
    assert after == ts + [' '] + ("malicious" + tail);
    IndexOfFirst(ts, ' ', "malicious" + tail);
    assert s[..|ms|] == ms;
    assert after[..|ts|] == ts;
    assert after[|ts|..|ts| + 10] == " malicious";
  }

  /** The summary line is read back from any text it starts. */
  lemma ReadSummaryOf(m: int, t: int, tail: string)
    ensures ReadSummary(IntToStr(m) + "/" + IntToStr(t) + " malicious" + tail) == Some((m, t))
  {
    ReadSummaryParts(IntToStr(m), IntToStr(t), tail);
    IntToStrRoundTrip(m);
    IntToStrRoundTrip(t);
  }

  /** The counts can be read back from the text: the malicious count and the sum of all five categories. */
  lemma AnalysisStatsReadBack(stats: LastAnalysisStats, vendors: seq<string>, u: Utils)
    ensures ReadSummary(Plain(AnalysisStats(stats, vendors, u))) == Some((stats.malicious, Total(stats)))
  {
    var tail := if vendors == [] then "" else "\n" + Plain(u.smartJoin(VendorItems(vendors), Some(VendorList)));
    assert Plain(AnalysisStats(stats, vendors, u)) == Summary(stats) + tail;
    ReadSummaryOf(stats.malicious, Total(stats), tail);
  }

  // ----- _gen_vt_reputation -----

  function RepStyle(reputation: int): Style
  {
    if reputation > 0 then Info else if reputation < 0 then Error else Default
  }

  /** The reputation as `str` gives it, styled by its sign. */
  function Reputation(reputation: int): (t: Text)
    ensures Plain(t) == IntToStr(reputation)
    ensures ParseInt(Plain(t)) == Some(reputation)
    ensures t.style == Some(Info) <==> reputation > 0
    ensures t.style == Some(Error) <==> reputation < 0
    ensures t.style == Some(Default) <==> reputation == 0
  {
    IntToStrRoundTrip(reputation);
    Styled(IntToStr(reputation), RepStyle(reputation))
  }

  // ----- _gen_vt_popularity -----

  function PopularityEntry(source: string, rank: int): (e: seq<Span>)
    ensures SpansPlain(e) == source + " (" + IntToStr(rank) + ")"
  {
    var a, b, c, d := Span(source, Some(PopularitySource)), Span(" (", None), Span(IntToStr(rank), Some(InlineStat)), Span(")", None);
    SpansPlainSingleton(a); SpansPlainSingleton(b); SpansPlainSingleton(c); SpansPlainSingleton(d);
    SpansPlainConcat([a], [b]);
    SpansPlainConcat([a, b], [c]);
    SpansPlainConcat([a, b, c], [d]);
    assert [a, b, c, d] == [a, b, c] + [d];
    assert [a, b, c] == [a, b] + [c];
    [Span(source, Some(PopularitySource)), Span(" (", None), Span(IntToStr(rank), Some(InlineStat)), Span(")", None)]
  }

  function PopularityParts(ranks: seq<(string, int)>): (parts: seq<seq<Span>>)
    ensures |parts| == |ranks|
  {
    seq(|ranks|, j requires 0 <= j < |ranks| => PopularityEntry(ranks[j].0, ranks[j].1))
  }

  /** No text for no ranks; otherwise one entry per rank, newline-separated. */
  function PopularityText(ranks: Dict<int>): Option<Text>
  {
    if |ranks| == 0 then None else Some(Text(None, Intercalate(NEWLINE, PopularityParts(ranks))))
  }

  method GenVtPopularity(ranks: Dict<int>) returns (r: Option<Text>)
    ensures r == PopularityText(ranks)
  {
    if |ranks| == 0 {
      return None;
    }
    var text := Empty();
    var lastKey := ranks[|ranks| - 1].0;
    var i := 0;
    while i < |ranks|
      invariant 0 <= i <= |ranks|
      invariant text.style == None
      invariant text.spans == Intercalate(NEWLINE, PopularityParts(ranks[..i])) + (if 0 < i < |ranks| then NEWLINE else [])
    {
      var (source, popularity) := ranks[i];
      ghost var before := text.spans;
      text := Append(text, source, Some(PopularitySource));
      text := Append(text, " (", None);
      text := Append(text, IntToStr(popularity), Some(InlineStat));
      text := Append(text, ")", None);
      assert text.spans == before + PopularityEntry(source, popularity);
      PopularityPartsSnoc(ranks, i);
      LastKeyOnlyAtEnd(ranks, i);
      if source != lastKey {
        text := Append(text, "\n", None);
      }
      i := i + 1;
    }
    assert ranks[..i] == ranks;
    assert text == Text(None, Intercalate(NEWLINE, PopularityParts(ranks)));
    r := Some(text);
  }

  lemma PopularityPartsSnoc(ranks: seq<(string, int)>, i: nat)
    requires i < |ranks|
    ensures var parts := PopularityParts(ranks[..i + 1]);
      Intercalate(NEWLINE, parts) ==
        if i == 0 then PopularityEntry(ranks[i].0, ranks[i].1)
        else Intercalate(NEWLINE, PopularityParts(ranks[..i])) + NEWLINE + PopularityEntry(ranks[i].0, ranks[i].1)
  {
    assert PopularityParts(ranks[..i + 1]) == PopularityParts(ranks[..i]) + [PopularityEntry(ranks[i].0, ranks[i].1)];
    IntercalateSnoc(NEWLINE, PopularityParts(ranks[..i]), PopularityEntry(ranks[i].0, ranks[i].1));
  }

  /** In a dict, only the last entry has the last key. */
  lemma LastKeyOnlyAtEnd<V>(d: Dict<V>, i: nat)
    requires i < |d|
    ensures d[i].0 == d[|d| - 1].0 <==> i == |d| - 1
  {
  }

  /** Lines of "source (rank)", one per entry in order, with newlines between them and none trailing. */
  lemma PopularityLines(ranks: Dict<int>)
    ensures PopularityText(ranks).None? <==> |ranks| == 0
    ensures PopularityText(ranks).Some? ==>
      Plain(PopularityText(ranks).value) ==
        Intercalate("\n", seq(|ranks|, j requires 0 <= j < |ranks| => ranks[j].0 + " (" + IntToStr(ranks[j].1) + ")"))
  {
    if |ranks| > 0 {
      var parts := PopularityParts(ranks);
      SpansPlainIntercalate(NEWLINE, parts);
      SpansPlainSingleton(Span("\n", None));
      assert PartsPlain(parts) == seq(|ranks|, j requires 0 <= j < |ranks| => ranks[j].0 + " (" + IntToStr(ranks[j].1) + ")");
    }
  }

  // ----- _gen_shodan_services -----

  /** One port as "port/transport". */
  function PortText(p: ShodanPort): Text
  {
    Append(Append(Empty(), IntToStr(p.port), Some(Port)), "/" + p.transport, Some(Transport))
  }

  function PortsStylized(ports: seq<ShodanPort>): seq<Option<Text>>
  {
    seq(|ports|, k requires 0 <= k < |ports| => Some(PortText(ports[k])))
  }

  /** The joined port list of one group, as `smart_join` renders it. */
  function JoinedPorts(ports: seq<ShodanPort>, u: Utils): Text
  {
    u.smartJoin(PortsStylized(ports), None)
  }

  /** "product (ports)" for one group. */
  function ProductEntry(product: string, ports: seq<ShodanPort>, u: Utils): seq<Span>
  {
    var joined := JoinedPorts(ports, u);
    [Span(product, Some(Product)), Span(" (", None)] + Restyle(joined.spans, joined.style) + [Span(")", None)]
  }

  lemma ProductEntryPlain(product: string, ports: seq<ShodanPort>, u: Utils)
    ensures SpansPlain(ProductEntry(product, ports, u)) == product + " (" + Plain(JoinedPorts(ports, u)) + ")"
  {
    var joined := JoinedPorts(ports, u);
    var head := [Span(product, Some(Product)), Span(" (", None)];
    var tail := [Span(")", None)];
    var mid := Restyle(joined.spans, joined.style);
    SpansPlainSingleton(head[0]);
    SpansPlainSingleton(tail[0]);
    SpansPlainConcat([head[0]], [head[1]]);
    SpansPlainSingleton(head[1]);
    assert head == [head[0]] + [head[1]];
    RestylePlain(joined.spans, joined.style);
    SpansPlainConcat(head, mid);
    SpansPlainConcat(head + mid, tail);
  }

  function ProductParts(grouped: seq<(string, seq<ShodanPort>)>, u: Utils): (parts: seq<seq<Span>>)
    ensures |parts| == |grouped|
  {
    seq(|grouped|, j requires 0 <= j < |grouped| => ProductEntry(grouped[j].0, grouped[j].1, u))
  }

  /** The grouping found no identified product: its only key is "Other". */
  predicate OnlyOther(grouped: Dict<seq<ShodanPort>>)
  {
    |grouped| == 1 && grouped[0].0 == "Other"
  }

  /**
   * No text without service data; the flat port list when the only group
   * is "Other"; otherwise one "product (ports)" entry per group,
   * newline-separated.
   */
  function ServicesText(ip: ShodanIp, u: Utils): Option<Text>
  {
    if |ip.data| == 0 then None
    else
      var grouped := u.groupPortsByProduct(ip.data);
      if OnlyOther(grouped) then Some(JoinedPorts(grouped[0].1, u))
      else Some(Text(None, Intercalate(NEWLINE, ProductParts(grouped, u))))
  }

  lemma ProductPartsSnoc(grouped: seq<(string, seq<ShodanPort>)>, i: nat, u: Utils)
    requires i < |grouped|
    ensures Intercalate(NEWLINE, ProductParts(grouped[..i + 1], u)) ==
      if i == 0 then ProductEntry(grouped[i].0, grouped[i].1, u)
      else Intercalate(NEWLINE, ProductParts(grouped[..i], u)) + NEWLINE + ProductEntry(grouped[i].0, grouped[i].1, u)
  {
    assert ProductParts(grouped[..i + 1], u) == ProductParts(grouped[..i], u) + [ProductEntry(grouped[i].0, grouped[i].1, u)];
    IntercalateSnoc(NEWLINE, ProductParts(grouped[..i], u), ProductEntry(grouped[i].0, grouped[i].1, u));
  }

  /** The four appends of one loop round add exactly one product entry. */
  lemma AppendProductEntry(t: Text, product: string, ports: seq<ShodanPort>, u: Utils)
    ensures Append(AppendText(Append(Append(t, product, Some(Product)), " (", None), JoinedPorts(ports, u)), ")", None)
      == t.(spans := t.spans + ProductEntry(product, ports, u))
  {
  }

  /** One round of the services loop: the next entry, then a newline unless its key is the last. */
  lemma ProductStep(grouped: Dict<seq<ShodanPort>>, i: nat, u: Utils, spans: seq<Span>)
    requires i < |grouped|
    requires spans == Intercalate(NEWLINE, ProductParts(grouped[..i], u)) + (if 0 < i < |grouped| then NEWLINE else [])
    ensures spans + ProductEntry(grouped[i].0, grouped[i].1, u) + (if grouped[i].0 != grouped[|grouped| - 1].0 then NEWLINE else [])
      == Intercalate(NEWLINE, ProductParts(grouped[..i + 1], u)) + (if 0 < i + 1 < |grouped| then NEWLINE else [])
  {
    ProductPartsSnoc(grouped, i, u);
    LastKeyOnlyAtEnd(grouped, i);
  }

  method GenShodanServices(ip: ShodanIp, u: Utils) returns (r: Option<Text>)
    ensures r == ServicesText(ip, u)
  {
    if |ip.data| == 0 {
      return None;
    }
    var grouped := u.groupPortsByProduct(ip.data);
    if |grouped| == 1 && grouped[0].0 == "Other" {
      return Some(JoinedPorts(grouped[0].1, u));
    }
    var text := Empty();
    var i := 0;
    while i < |grouped|
      invariant 0 <= i <= |grouped|
      invariant text.style == None
      invariant text.spans == Intercalate(NEWLINE, ProductParts(grouped[..i], u)) + (if 0 < i < |grouped| then NEWLINE else [])
    {
      var (product, ports) := grouped[i];
      AppendProductEntry(text, product, ports, u);
      ProductStep(grouped, i, u, text.spans);
      text := Append(text, product, Some(Product));
      text := Append(text, " (", None);
      text := AppendText(text, JoinedPorts(ports, u));
      text := Append(text, ")", None);
      if product != grouped[|grouped| - 1].0 {
        text := Append(text, "\n", None);
      }
      i := i + 1;
    }
    assert grouped[..i] == grouped;
    assert text == Text(None, Intercalate(NEWLINE, ProductParts(grouped, u)));
    r := Some(text);
  }

  /** The three shapes of the services field, in plain text. */
  lemma ServicesLines(ip: ShodanIp, u: Utils)
    ensures ServicesText(ip, u).None? <==> |ip.data| == 0
    ensures |ip.data| > 0 && OnlyOther(u.groupPortsByProduct(ip.data)) ==>
      ServicesText(ip, u) == Some(JoinedPorts(u.groupPortsByProduct(ip.data)[0].1, u))
    ensures |ip.data| > 0 && !OnlyOther(u.groupPortsByProduct(ip.data)) ==>
      var grouped := u.groupPortsByProduct(ip.data);
      Plain(ServicesText(ip, u).value) ==
        Intercalate("\n", seq(|grouped|, j requires 0 <= j < |grouped| => grouped[j].0 + " (" + Plain(JoinedPorts(grouped[j].1, u)) + ")"))
  {
    if |ip.data| > 0 && !OnlyOther(u.groupPortsByProduct(ip.data)) {
      var grouped := u.groupPortsByProduct(ip.data);
      var parts := ProductParts(grouped, u);
      forall j | 0 <= j < |grouped| ensures PartsPlain(parts)[j] == grouped[j].0 + " (" + Plain(JoinedPorts(grouped[j].1, u)) + ")" {
        ProductEntryPlain(grouped[j].0, grouped[j].1, u);
      }
      SpansPlainIntercalate(NEWLINE, parts);
      SpansPlainSingleton(Span("\n", None));
      assert PartsPlain(parts) ==
        seq(|grouped|, j requires 0 <= j < |grouped| => grouped[j].0 + " (" + Plain(JoinedPorts(grouped[j].1, u)) + ")");
    }
  }

  // ----- _get_ip_enrichment -----

  /** The record the run's enrichment holds for `ip`, tagged with its provider; no record when the IP is not a key. */
  function GetIpEnrichment(m: EnrichMap, ip: string): (r: Option<Enrichment>)
    ensures r.Some? <==> ip in EnrichedIps(m)
    ensures m.IpWhoisMap? && ip in m.whoisRecords ==> r == Some(FromIpWhois(m.whoisRecords[ip]))
    ensures m.ShodanIpMap? && ip in m.shodanRecords ==> r == Some(FromShodan(m.shodanRecords[ip]))
  {
    match m
    case IpWhoisMap(records) => if ip in records.Keys then Some(FromIpWhois(records[ip])) else None
    case ShodanIpMap(records) => if ip in records.Keys then Some(FromShodan(records[ip])) else None
  }

  // ----- whois_panel -----

  /** Python truthiness of an optional string. */
  predicate Truthy(o: Option<string>)
  {
    o.Some? && o.value != ""
  }

  /** Python's `a or b`. */
  function Or(a: Option<string>, b: Option<string>): Option<string>
  {
    if Truthy(a) then a else b
  }

  /** An optional string as a table value. */
  function OptStr(o: Option<string>): (v: Option<Text>)
    ensures Shown(v) <==> Truthy(o)
    ensures Truthy(o) ==> v == Some(Str(o.value))
  {
    match o
    case None => None
    case Some(s) => Some(Str(s))
  }

  function Field(name: string): Label
  {
    Label(name, None)
  }

  /** Strings handed to `smart_join` one by one. */
  function StrItems(items: seq<string>): seq<Option<Text>>
  {
    seq(|items|, k requires 0 <= k < |items| => Some(Str(items[k])))
  }

  function PtWhoisRows(w: PtWhois, u: Utils): seq<Row>
  {
    [ (Field("Registrar:"), OptStr(w.registrar)),
      (Field("Organization:"), OptStr(w.organization)),
      (Field("Name:"), OptStr(w.name)),
      (Field("Email:"), OptStr(w.contactEmail)),
      (Field("Phone:"), OptStr(w.registrant.telephone)),
      (Field("Street:"), OptStr(w.registrant.street)),
      (Field("City:"), OptStr(w.registrant.city)),
      (Field("State:"), OptStr(w.registrant.state)),
      (Field("Country:"), OptStr(w.registrant.country)),
      (Field("Nameservers:"), Some(u.smartJoin(StrItems(w.nameServers), Some(NameserverList)))),
      (Field("Registered:"), Some(Str(u.isoDate(w.registered)))),
      (Field("Updated:"), Some(Str(u.isoDate(w.registryUpdatedAt)))),
      (Field("Expires:"), Some(Str(u.isoDate(w.expiresAt)))) ]
  }

  function HistoricalRows(attribs: HistoricalWhoisEntry, wm: WhoisMap, u: Utils): seq<Row>
  {
    var adminLocation := u.smartJoin([OptStr(wm.adminCity), OptStr(wm.adminState), OptStr(wm.adminCountry)], None);
    var nameServers := if wm.nameServers.Some? then wm.nameServers.value else [];
    [ (Field("Registrar:"), OptStr(wm.registrar)),
      (Field("Organization:"), OptStr(wm.registrantOrg)),
      (Field("Name:"), OptStr(wm.registrantName)),
      (Field("Email:"), OptStr(wm.registrantEmail)),
      (Field("Country:"), OptStr(attribs.registrantCountry)),
      (Field("Admin Location:"), Some(adminLocation)),
      (Field("Nameservers:"), Some(u.smartJoin(StrItems(nameServers), Some(NameserverList)))),
      (Field("Registered:"), OptStr(Or(wm.creationDate, wm.registeredOn))),
      (Field("Updated:"), OptStr(Or(wm.updatedDate, wm.lastUpdated))),
      (Field("Expires:"), OptStr(Or(wm.expiryDate, wm.expiryDateAlt))) ]
  }

  /** `domain or route`; neither present gives an empty heading. */
  function HistoricalHeading(wm: WhoisMap): string
  {
    match Or(wm.domain, wm.route)
    case Some(s) => s
    case None => ""
  }

  const WHOIS_UNAVAILABLE := "Unable to gather whois data"

  function WhoisPanel(whois: Whois, u: Utils): (p: Option<Panel>)
    ensures p.Some? ==> p.value.title == "whois"
    ensures whois.Historical? && |whois.data| == 0 ==> p.None?
    ensures whois.Historical? && |whois.data| > 0 && whois.data[0].whoisMap.None? ==>
      p == Some(Panel("whois", Notice(Styled(WHOIS_UNAVAILABLE, Disclaimer))))
  {
    match whois
    case Pt(w) =>
      var heading := GenHeadingText(w.domain, Some(PT_GUI_BASEURL + "/" + w.domain + "/whois"));
      var body := TableOf(PtWhoisRows(w, u));
      if body != NoRows then Some(Panel("whois", Of(GenInfo(body, heading)))) else None
    case Historical(data) =>
      if |data| == 0 then None
      else
        var attribs := data[0];
        match attribs.whoisMap
        case None => Some(Panel("whois", Notice(Styled(WHOIS_UNAVAILABLE, Disclaimer))))
        case Some(wm) =>
          var heading := GenHeadingText(HistoricalHeading(wm), None);
          var body := TableOf(HistoricalRows(attribs, wm, u));
          if body != NoRows then Some(Panel("whois", Of(GenInfo(body, heading)))) else None
  }

  /** The rows a panel shows in its table, if it holds one. */
  function PanelRows(p: Option<Panel>): seq<(Label, Text)>
  {
    if p.Some? && p.value.content.Of? && p.value.content.block.body.Grid? then p.value.content.block.body.rows else []
  }

  /** The historical variant reads the latest entry only. */
  lemma WhoisUsesLatestEntry(latest: HistoricalWhoisEntry, older: seq<HistoricalWhoisEntry>, u: Utils)
    ensures WhoisPanel(Historical([latest] + older), u) == WhoisPanel(Historical([latest]), u)
  {
  }

  /** When the label `name` is at index i only, the table shows it exactly with a shown value of rows[i]. */
  lemma {:induction false} UniqueFieldKept(rows: seq<Row>, i: nat, name: string)
    requires i < |rows| && rows[i].0 == Field(name)
    requires forall j :: 0 <= j < |rows| && j != i ==> rows[j].0 != Field(name)
    ensures forall t :: (Field(name), t) in Kept(rows) <==> rows[i].1 == Some(t) && Plain(t) != ""
  {
    KeptExactly(rows);
    forall t ensures (Field(name), t) in Kept(rows) <==> rows[i].1 == Some(t) && Plain(t) != "" {
      var p := (Field(name), t);
      if rows[i].1 == Some(t) && Plain(t) != "" {
        assert rows[i].0 == p.0;
      }
    }
  }

  /** A table field shows the first truthy of two alternates, and is absent when neither is. */
  predicate FallbackShown(rows: seq<(Label, Text)>, name: string, first: Option<string>, second: Option<string>)
  {
    && (Truthy(first) ==> (Field(name), Str(first.value)) in rows)
    && (!Truthy(first) && Truthy(second) ==> (Field(name), Str(second.value)) in rows)
    && (!Truthy(first) && !Truthy(second) ==> forall q :: q in rows ==> q.0 != Field(name))
  }

  lemma FallbackField(rows: seq<Row>, i: nat, name: string, first: Option<string>, second: Option<string>)
    requires i < |rows| && rows[i] == (Field(name), OptStr(Or(first, second)))
    requires forall j :: 0 <= j < |rows| && j != i ==> rows[j].0 != Field(name)
    ensures FallbackShown(Kept(rows), name, first, second)
  {
    UniqueFieldKept(rows, i, name);
    if !Truthy(first) && !Truthy(second) {
      forall q | q in Kept(rows) ensures q.0 != Field(name) {
        assert q == (q.0, q.1);
      }
    }
  }

  /**
   * The historical variant: the heading is `domain`, or `route` when the
   * domain is empty; Registered, Updated and Expires each show their first
   * field, or the alternate when the first is empty.
   */
  lemma WhoisHistoricalFallbacks(attribs: HistoricalWhoisEntry, older: seq<HistoricalWhoisEntry>, u: Utils)
    requires attribs.whoisMap.Some?
    ensures var wm := attribs.whoisMap.value;
      var p := WhoisPanel(Historical([attribs] + older), u);
      && (p.Some? && Truthy(wm.domain) ==> p.value.content.block == Headed(Title(wm.domain.value, None), p.value.content.block.body))
      && (p.Some? && !Truthy(wm.domain) && Truthy(wm.route) ==> p.value.content.block == Headed(Title(wm.route.value, None), p.value.content.block.body))
      && FallbackShown(PanelRows(p), "Registered:", wm.creationDate, wm.registeredOn)
      && FallbackShown(PanelRows(p), "Updated:", wm.updatedDate, wm.lastUpdated)
      && FallbackShown(PanelRows(p), "Expires:", wm.expiryDate, wm.expiryDateAlt)
  {
    var wm := attribs.whoisMap.value;
    var rows := HistoricalRows(attribs, wm, u);
    FallbackField(rows, 7, "Registered:", wm.creationDate, wm.registeredOn);
    FallbackField(rows, 8, "Updated:", wm.updatedDate, wm.lastUpdated);
    FallbackField(rows, 9, "Expires:", wm.expiryDate, wm.expiryDateAlt);
    assert PanelRows(WhoisPanel(Historical([attribs] + older), u)) == Kept(rows);
  }

  /** Both variants: once the table is built, there is no panel exactly when no field has a value to show. */
  lemma WhoisNoneWhenNothingShown(whois: Whois, u: Utils)
    ensures whois.Pt? ==>
      var rows := PtWhoisRows(whois.pt, u);
      WhoisPanel(whois, u).None? <==> forall i :: 0 <= i < |rows| ==> !Shown(rows[i].1)
    ensures whois.Historical? && |whois.data| > 0 && whois.data[0].whoisMap.Some? ==>
      var rows := HistoricalRows(whois.data[0], whois.data[0].whoisMap.value, u);
      WhoisPanel(whois, u).None? <==> forall i :: 0 <= i < |rows| ==> !Shown(rows[i].1)
  {
    if whois.Pt? {
      KeptExactly(PtWhoisRows(whois.pt, u));
    } else if |whois.data| > 0 && whois.data[0].whoisMap.Some? {
      KeptExactly(HistoricalRows(whois.data[0], whois.data[0].whoisMap.value, u));
    }
  }
}
