# wtfis report assembly, modelled in Dafny

wtfis looks up a domain or an IP address at VirusTotal. It enriches the
resolved IP addresses with ipwho.is (or Shodan) records, adds whois data,
and prints the result as Rich panels. This project models the part that
decides what is printed:

- **Base** (`wtfis/ui/base.py`) models the helpers every view shares:
  - the vendors that flagged the entity;
  - the two-column table that drops empty values;
  - the heading and group rules;
  - the analysis, reputation, popularity and Shodan-services texts;
  - the enrichment lookup;
  - the whois panel for both whois sources.
- **View** (`wtfis/ui/view.py`) models:
  - the domain report: the virustotal panel, the resolutions panel with its cap, separators and "+N more" footer, and the whois panel;
  - the IP report: the ip panel with the enrichment fields of its provider, and the whois panel;
  - the order of the panels and the dropping of absent ones when printing.
- **IpWhoisClient** (`wtfis/clients/ipwhois.py`) models the single lookup and the bulk lookup over the first resolutions of a domain.

The other modules are supporting definitions:

- **Wrappers**: `Option` and `Result`.
- **Seqs**: the join with separators, the `enumerate … if idx == cap: break` count, and occurrence counting.
- **RichText**: a Rich `Text` as styled spans; its plain string; the layout values (table, group, panel); and Python's `str(int)` with a parser that reads every `str(i)` back to `i`.
- **Models**: the records the views read. A dict that a loop iterates (analysis results, popularity ranks, port groups) is a sequence of pairs with distinct keys, which keeps the insertion order the loops depend on. The ipwhois and Shodan enrichment maps are only looked up, never iterated (wtfis/ui/base.py:179), so they are Dafny maps.

The views never change their fields after construction. So a view is a
value that is passed in, and the helpers become functions of it. The
statement loops become methods with invariants: the malicious-vendor
filter, `_gen_table`, the popularity and Shodan-services texts, the
resolutions panel and the bulk lookup. Each method is proved equal to a
specification function, and the properties are proved as lemmas about
that function. The comprehensions and one-line builders become functions:
the `is not None` filter in `print` is the recursive `View.Present`, the
`ports_stylized` loop is a sequence comprehension, and `_gen_group` is
the constructor `GroupOf`. The resolutions loop is generic in the
function that chooses each entry's rows. The concrete view passes the
real rows builder (`View.RowsOf`).

`smart_join`, `iso_date` and `ShodanIp.group_ports_by_product` live in
`wtfis/utils.py` and `wtfis/models`, which are not part of this model. They
are the fields of a `Utils` value, so every property holds whatever they
return. The HTTP request is a parameter `fetch` from the full URL to the
decoded reply or the error raised. The console is replaced by the
`Screen` value that `print` would hand to it.

Three behaviours of the lookup code are worth stating outright:

- **A failed lookup ends the run.** A lookup error from `_get` or `raise_for_status` is not caught in `bulk_get_ipwhois`. It ends the whole run: `IpWhoisClient.EnrichedFailures` states this, `IpWhoisClient.EnrichedFailureSticks` states that later lookups cannot change that result, and `IpWhoisClient.BulkGetIpWhois` returns at the first failure. A failed lookup is not skipped.
- **Repeated addresses are looked up again.** `bulk_get_ipwhois` queries every entry up to the cap, duplicates included.
- **Bulk keys come from the record.** The bulk map is keyed by the `ip` member of the returned record, not by the address that was asked for. The single lookup keys by the address asked for (`IpWhoisClient.SingleKeysByQuery`).

## Model

| member | source | states |
|---|---|---|
| Base.VendorsWhoFlaggedMalicious | wtfis/ui/base.py:48-53 | The loop returns the result keys whose category is "malicious", in dictionary order. |
| Base.FlaggedExactly | wtfis/ui/base.py:48-53 | A vendor is listed exactly when some result under that key has category "malicious". |
| Base.FlaggedConcat | wtfis/ui/base.py:49-53 | The vendor list over two runs of results is the concatenation of the two lists, so order is kept. |
| Base.GenTable | wtfis/ui/base.py:66-83 | The loop keeps, in order, the rows whose value is present and prints as a non-empty string. It returns the empty-string sentinel when no row is kept. |
| Base.KeptExactly | wtfis/ui/base.py:75-83 | A (field, value) pair is in the table exactly when it was given with a shown value. The table is the empty sentinel exactly when no value is shown. |
| Base.KeptConcat | wtfis/ui/base.py:75-80 | Filtering distributes over concatenation, so the kept rows keep their relative order. |
| Base.GenInfo | wtfis/ui/base.py:90-92 | The body is grouped under the heading exactly when the heading's text is non-empty. Otherwise the body alone is returned. |
| Base.AnalysisStats | wtfis/ui/base.py:98-117 | The text is in the error style when malicious >= 1, else the info style. Its plain text is "m/t malicious", with t the sum of the five counts. When any vendors are given, a newline and the joined vendors follow. |
| Base.AnalysisStatsReadBack | wtfis/ui/base.py:106-110 | Reading the text back recovers the malicious count and the total of all five categories. |
| Base.Reputation | wtfis/ui/base.py:119-128 | The text is `str(reputation)` and parses back to it. The style is info, error or default by the sign. |
| RichText.IntToStrRoundTrip | wtfis/ui/base.py:128 | Python's decimal `str` of an integer parses back to the same integer. |
| Base.GenVtPopularity | wtfis/ui/base.py:130-142 | The loop returns no text for no ranks. Otherwise it returns "source (rank)" per entry, with a newline after every entry whose key is not the last key. |
| Base.LastKeyOnlyAtEnd | wtfis/ui/base.py:140 | Because keys are distinct, comparing with the last key singles out the last entry only. |
| Base.PopularityLines | wtfis/ui/base.py:130-142 | The result is None exactly for no ranks. The plain text is the "source (rank)" lines in order, newline-separated, with none trailing. |
| Base.GenShodanServices | wtfis/ui/base.py:144-176 | The loop returns no text for no ports. It returns the joined "port/transport" list when the only group is "Other". Otherwise it returns "product (ports)" per group, newline-separated. |
| Base.ServicesLines | wtfis/ui/base.py:144-176 | These are the three shapes of the services field in plain text: absent exactly for no ports, the bare port list, and the newline-separated product lines. |
| Base.GetIpEnrichment | wtfis/ui/base.py:178-179 | A record is returned exactly when the IP is a key of the run's map. It is the record under that key, tagged with its provider. |
| Base.OptStr | wtfis/ui/base.py:77 | An optional string value is shown exactly when it is a non-empty string. |
| Base.WhoisPanel | wtfis/ui/base.py:181-240 | The panel is titled "whois". There is no panel for empty historical data. A missing whois map gives the "Unable to gather whois data" panel. |
| Base.WhoisUsesLatestEntry | wtfis/ui/base.py:208-209 | The historical variant reads the first (latest) entry only. |
| Base.WhoisHistoricalFallbacks | wtfis/ui/base.py:225-236 | The heading is the domain, or the route when the domain is empty. Registered, Updated and Expires each show their first field, or the alternate when the first is empty, and are absent when both are empty. |
| Base.WhoisNoneWhenNothingShown | wtfis/ui/base.py:239-240 | For both whois variants there is no panel exactly when no field of the table has a value to show. |
| View.StripASWithoutA | wtfis/ui/view.py:114 | `replace('AS', '')` leaves a string without an 'A' unchanged. |
| View.StripASPrefix | wtfis/ui/view.py:114 | "AS" followed by digits becomes the digits. |
| View.StripASConcat | wtfis/ui/view.py:114 | Splitting a string after a character other than 'A' splits the replacement: each side is replaced on its own. |
| View.StripASSinglePass | wtfis/ui/view.py:114 | An "AS" not preceded by a dangling 'A' is removed and the two sides are replaced independently; the pass does not rescan, so "AASS" becomes "AS". |
| View.EnrichmentRows | wtfis/ui/view.py:104-128 | No enrichment adds no rows. ipwhois adds ASN, ISP and Location. Shodan adds ASN, ISP, Location, OS, Services, Tags and Last Scan. The Shodan ASN is absent for an empty ASN. Services is linked to the Shodan host page and is absent without ports. Tags is absent without tags. |
| View.RenderResolutions | wtfis/ui/view.py:83-159 | The loop renders the resolutions up to the cap. A separator follows each entry that is neither the cap's last nor the data's last. The "+N more" footer is appended when the cap is below the total count. |
| View.ResolutionsPanel | wtfis/ui/view.py:77-166 | There is no panel without resolutions data. Otherwise the panel is titled "resolutions" and holds the rendered items, or there is no panel when there are none. |
| View.ResolutionsPanelNone | wtfis/ui/view.py:79-80 | The panel is absent exactly when there is no resolutions data, or when no entry was rendered and the cap is not below the count. |
| View.ResolutionsLayout | wtfis/ui/view.py:83-159 | For a cap m >= 0 there are min(m, len) entries: the first ones, in order, at even positions. Separators take every odd position between entries, one fewer than the entries. The single "+N more" footer (N = count - m) is last exactly when m < count. |
| View.JoinedLayout | wtfis/ui/view.py:142-149 | k entries joined by blank lines alternate with them: 2k-1 items, k-1 separators, none trailing. |
| View.ResolutionsNegativeCap | wtfis/ui/view.py:84-85 | A negative cap never stops the loop and never allows a separator: every resolution is rendered, in order, back to back. |
| View.UnenrichedEntryRows | wtfis/ui/view.py:96-104 | An entry whose IP has no enrichment has exactly the Analysis and Resolved rows. |
| View.ResolutionVariantIsolation | wtfis/ui/view.py:104-111 | With ipwhois enrichment an entry never has an OS, Services, Tags or Last Scan row. |
| View.DomainTableKept | wtfis/ui/view.py:67-74 | In the virustotal table, analysis then reputation come first. Popularity and categories appear exactly when they have text to show. |
| View.DomainPanelRows | wtfis/ui/view.py:41-75 | The virustotal panel is titled "virustotal". Its table always starts with the analysis (with the flagging vendors), then the reputation. |
| View.DomainPanelOptionalRows | wtfis/ui/view.py:48-74 | The virustotal panel shows popularity exactly when the domain has ranks, and no categories row without categories. |
| View.IpTableKept | wtfis/ui/view.py:207-246 | In the ip table, analysis then reputation come first. No row appears whose label was not given. |
| View.IpPanelRows | wtfis/ui/view.py:194-248 | The ip panel is titled "ip". Its rows are Analysis, Reputation and Last Modified, then the enrichment rows of the address's own record. Analysis and reputation always head the table. |
| View.IpPanelVariantIsolation | wtfis/ui/view.py:216-223 | With ipwhois enrichment the ip panel never shows a Shodan-only field. |
| View.PresentExactly | wtfis/ui/view.py:169-173 | The filtered list holds exactly the panels that are not None, and no more entries than were given. |
| View.PresentConcat | wtfis/ui/view.py:169-173 | The `is not None` filter keeps the order of the panels. |
| View.Layout | wtfis/ui/view.py:175-178 | One column is a group led by a blank line, with the panels in order. Otherwise the panels are side by side as columns. |
| View.DomainPrint | wtfis/ui/view.py:168-178 | The domain report prints the virustotal panel first. The resolutions panel and the whois panel follow, each only when present. |
| View.IpPrint | wtfis/ui/view.py:250-259 | The IP report prints the ip panel first, then the whois panel when present. |
| IpWhoisClient.GetIpWhois | wtfis/clients/ipwhois.py:14-16 | A request error propagates. The record is returned exactly when the reply's "success" is the JSON value `true`. A reply claiming success that is not a record is an error. Any other reply gives no record. |
| IpWhoisClient.Queried | wtfis/clients/ipwhois.py:23-26 | The lookup asks for the first min(cap, len) resolved addresses, in order. A negative cap asks for all of them. |
| IpWhoisClient.BulkGetIpWhois | wtfis/clients/ipwhois.py:18-30 | The loop's result is the left fold of the lookups over the queried addresses. |
| IpWhoisClient.EnrichedFailureSticks | wtfis/clients/ipwhois.py:27 | Once a lookup has failed, the run's result is that error. |
| IpWhoisClient.EnrichedFailures | wtfis/clients/base.py:21-25 | The run fails exactly when some queried lookup fails, with the error of the first failing one, all earlier lookups having succeeded. |
| IpWhoisClient.EnrichedSound | wtfis/clients/ipwhois.py:26-29 | A successful map holds only records returned for queried addresses, each under its own "ip", with no more keys than queries. |
| IpWhoisClient.EnrichedComplete | wtfis/clients/ipwhois.py:28-29 | A record that was found is stored under its own "ip" unless a later lookup returns another record with that "ip". So when several records share an "ip", the last one wins. |
| IpWhoisClient.BulkCapZero | wtfis/clients/ipwhois.py:23-25 | A cap of zero asks for nothing and yields the empty map. |
| IpWhoisClient.SingleGetIpWhois | wtfis/clients/ipwhois.py:32-37 | The record, when found, is stored under the address that was asked for. The map is empty when there is no record. A lookup error propagates. |
| IpWhoisClient.SingleKeysByQuery | wtfis/clients/ipwhois.py:29 | The single lookup keys by the query. A one-address bulk lookup keys by the record's own "ip". |

## Left out

- Rich rendering: colours, theme names, justification, padding, the table's column widths and folding, and panel borders are not modelled. Styles are tags and layout is plain values.
- `smart_join`, `iso_date` and `group_ports_by_product` are uninterpreted functions passed in as `Utils`. Their files are not part of this model.
- Console output: `print` returns the `Screen` it would print instead of writing it.
- HTTP and JSON: the `requests` session, `raise_for_status` and JSON decoding are the `fetch` parameter, and any error they raise is a `RequestFailed` value.
- Schema parsing: pydantic parsing of replies is not modelled beyond "the body is a record or it is not". A non-record body under `success: true` becomes `InvalidRecord`, standing for the `ValidationError` that would be raised.
- The Shodan client and the VirusTotal and PassiveTotal clients are not part of this model. Their results arrive as inputs.
- The commented-out disclaimer for resolutions older than a year (wtfis/ui/view.py:130-139) is disabled in the source and is not modelled.
- Base.WhoisPanel: when `domain` of the historical whois map is None or the empty string and `route` is None, `domain or route` is None and Rich raises while appending it to the heading (wtfis/ui/base.py:225). The model uses an empty heading instead, so the table is shown without a heading.
- The "+N more" footer is the item `MoreFooter(N)`. Its rendering as the centred text "\n+N more" in the footer style is not modelled.
- Integer widths: Python integers are unbounded, and so are the model's.
- Default arguments: `max_resolutions` defaults to 3 (wtfis/ui/view.py:35) and `one_column` to False (wtfis/ui/view.py:168, wtfis/ui/view.py:250). In the model they are a required field of `View.DomainView` and a required parameter of `View.DomainPrint` and `View.IpPrint`.
- The request is a function of its URL: within a run, the same address always gets the same reply. The program sends a new request for every lookup (wtfis/clients/ipwhois.py:27), and a repeated lookup could get a different reply.
