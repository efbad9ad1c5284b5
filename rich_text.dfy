/**
 * The terminal-rendering objects the views build (Rich `Text`, `Table`,
 * `Group`, `Panel`), reduced to plain data, plus Python's `str(int)`.
 * Painting, widths and justification are not modelled; theme styles are
 * the `Style` enumeration.
 */
module RichText {
  import opened Wrappers
  import opened Seqs

  /** The theme entries the views use, and Rich's literal "default" style. */
  datatype Style =
    | Default | Info | Error | Heading | TableField | TableValue | PanelTitle
    | VendorList | PopularitySource | InlineStat | Port | Transport | Product
    | Tags | NameserverList | Footer | Disclaimer

  /** A run of characters; a span without a style of its own takes the text's. */
  datatype Span = Span(s: string, style: Option<Style>)

  /** A Rich `Text`: an optional base style and its spans. */
  datatype Text = Text(style: Option<Style>, spans: seq<Span>)

  function SpansPlain(spans: seq<Span>): string
    decreases |spans|
  {
    if |spans| == 0 then "" else SpansPlain(spans[..|spans| - 1]) + spans[|spans| - 1].s
  }

  /** What `str()` of a `Text` gives: its characters without styling. */
  function Plain(t: Text): string
  {
    SpansPlain(t.spans)
  }

  /** A Python `str` used where Rich accepts a renderable. */
  function Str(s: string): (t: Text)
    ensures Plain(t) == s
  {
    var spans := [Span(s, None)];
    assert spans[..0] == [];
    assert SpansPlain(spans) == SpansPlain([]) + s;
    Text(None, spans)
  }

  /** `Text(s, style=st)`. */
  function Styled(s: string, st: Style): (t: Text)
    ensures Plain(t) == s && t.style == Some(st)
  {
    Str(s).(style := Some(st))
  }

  /** `Text()`. */
  function Empty(): (t: Text)
    ensures Plain(t) == ""
  {
    Text(None, [])
  }

  /** `t.append(s, style=st)`. */
  function Append(t: Text, s: string, st: Option<Style>): Text
  {
    t.(spans := t.spans + [Span(s, st)])
  }

  lemma AppendPlain(t: Text, s: string, st: Option<Style>)
    ensures Plain(Append(t, s, st)) == Plain(t) + s
  {
    SpansPlainConcat(t.spans, [Span(s, st)]);
    SpansPlainSingleton(Span(s, st));
  }

  /** The spans of an appended `Text`, where its own base style fills in unstyled spans. */
  function Restyle(spans: seq<Span>, base: Option<Style>): (r: seq<Span>)
    ensures |r| == |spans|
    decreases |spans|
  {
    if |spans| == 0 then []
    else
      var last := spans[|spans| - 1];
      Restyle(spans[..|spans| - 1], base) + [if last.style.None? then last.(style := base) else last]
  }

  /** `t.append(u)` for a `Text` u. */
  function AppendText(t: Text, u: Text): Text
  {
    t.(spans := t.spans + Restyle(u.spans, u.style))
  }

  lemma AppendTextPlain(t: Text, u: Text)
    ensures Plain(AppendText(t, u)) == Plain(t) + Plain(u)
  {
    RestylePlain(u.spans, u.style);
    SpansPlainConcat(t.spans, Restyle(u.spans, u.style));
  }

  lemma {:induction false} SpansPlainConcat(a: seq<Span>, b: seq<Span>)
    ensures SpansPlain(a + b) == SpansPlain(a) + SpansPlain(b)
    decreases |b|
  {
    if |b| == 0 {
      assert a + b == a;
    } else {
      var init := b[..|b| - 1];
      assert (a + b)[..|a + b| - 1] == a + init;
      assert (a + b)[|a + b| - 1] == b[|b| - 1];
      SpansPlainConcat(a, init);
      assert SpansPlain(b) == SpansPlain(init) + b[|b| - 1].s;
    }
  }

  lemma SpansPlainSingleton(x: Span)
    ensures SpansPlain([x]) == x.s
  {
    assert [x][..0] == [];
  }

  lemma {:induction false} RestylePlain(spans: seq<Span>, base: Option<Style>)
    ensures SpansPlain(Restyle(spans, base)) == SpansPlain(spans)
    decreases |spans|
  {
    if |spans| > 0 {
      var last := spans[|spans| - 1];
      RestylePlain(spans[..|spans| - 1], base);
      SpansPlainConcat(Restyle(spans[..|spans| - 1], base), [if last.style.None? then last.(style := base) else last]);
    }
  }

  /** The plain text of each part. */
  function PartsPlain(parts: seq<seq<Span>>): (r: seq<string>)
    ensures |r| == |parts|
  {
    seq(|parts|, j requires 0 <= j < |parts| => SpansPlain(parts[j]))
  }

  /** Joining span lists with a separator joins their plain texts with the separator's plain text. */
  lemma {:induction false} SpansPlainIntercalate(sep: seq<Span>, parts: seq<seq<Span>>)
    ensures SpansPlain(Intercalate(sep, parts)) == Intercalate(SpansPlain(sep), PartsPlain(parts))
    decreases |parts|
  {
    if |parts| > 1 {
      var init := parts[..|parts| - 1];
      SpansPlainIntercalate(sep, init);
      SpansPlainConcat(Intercalate(sep, init), sep);
      SpansPlainConcat(Intercalate(sep, init) + sep, parts[|parts| - 1]);
      assert PartsPlain(parts)[..|parts| - 1] == PartsPlain(init);
    }
  }

  // ----- Layout, as data -----

  /** A table field name; `_gen_linked_field_name` gives it a hyperlink. */
  datatype Label = Label(name: string, link: Option<string>)

  /** A field and its value, as handed to `_gen_table`; `None` is an absent value. */
  type Row = (Label, Option<Text>)

  /** `_gen_heading_text`: the heading string and its optional hyperlink. */
  datatype Title = Title(text: string, link: Option<string>)

  /** What `_gen_table` returns: a grid of the rows kept, or the empty string. */
  datatype Table = Grid(rows: seq<(Label, Text)>) | NoRows

  /** What `_gen_info` returns: `Group(heading, body)`, or the body alone. */
  datatype Block = Headed(title: Title, body: Table) | Bare(body: Table)

  /** One element of the resolutions group: an entry, a blank line, or the "+N more" footer. */
  datatype Item = Entry(block: Block) | Separator | MoreFooter(hidden: int)

  /** What a panel holds. */
  datatype Content = Of(block: Block) | GroupOf(items: seq<Item>) | Notice(text: Text)

  /** `_gen_panel(title, renderable)`. */
  datatype Panel = Panel(title: string, content: Content)

  // ----- Python's str(int) -----

  predicate IsDigit(c: char)
  {
    '0' <= c <= '9'
  }

  predicate AllDigits(s: string)
  {
    forall k :: 0 <= k < |s| ==> IsDigit(s[k])
  }

  function DigitChar(d: nat): (c: char)
    requires d < 10
    ensures IsDigit(c) && c as int - '0' as int == d
  {
    "0123456789"[d]
  }

  /** Decimal digits of a natural number, most significant first. */
  function NatToStr(n: nat): (s: string)
    ensures |s| > 0 && AllDigits(s)
    decreases n
  {
    if n < 10 then [DigitChar(n)] else NatToStr(n / 10) + [DigitChar(n % 10)]
  }

  /** `str(i)` for a Python int: a minus sign for negatives, then the digits. */
  function IntToStr(i: int): (s: string)
    ensures |s| > 0
    ensures forall k :: 0 <= k < |s| ==> IsDigit(s[k]) || (k == 0 && s[k] == '-')
  {
    if i < 0 then "-" + NatToStr(-i) else NatToStr(i)
  }

  function ParseNat(s: string): nat
    requires AllDigits(s)
    decreases |s|
  {
    if |s| == 0 then 0 else 10 * ParseNat(s[..|s| - 1]) + (s[|s| - 1] as int - '0' as int)
  }

  /** Reads a decimal integer back; `None` for anything that is not one. */
  function ParseInt(s: string): Option<int>
  {
    if |s| > 1 && s[0] == '-' && AllDigits(s[1..]) then Some(-(ParseNat(s[1..]) as int))
    else if |s| > 0 && AllDigits(s) then Some(ParseNat(s))
    else None
  }

  lemma {:induction false} NatToStrRoundTrip(n: nat)
    ensures ParseNat(NatToStr(n)) == n
    decreases n
  {
    if n >= 10 {
      NatToStrRoundTrip(n / 10);
      var s := NatToStr(n);
      assert s[..|s| - 1] == NatToStr(n / 10);
    }
  }

  /** `str` on integers is read back exactly: no two integers print alike. */
  lemma IntToStrRoundTrip(i: int)
    ensures ParseInt(IntToStr(i)) == Some(i)
  {
    var s := IntToStr(i);
    if i < 0 {
      NatToStrRoundTrip(-i);
      assert s[1..] == NatToStr(-i);
      assert |s| > 1 && s[0] == '-';
    } else {
      NatToStrRoundTrip(i);
      assert s == NatToStr(i) && IsDigit(s[0]);
    }
  }
}
