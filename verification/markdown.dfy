/** The markdown export of the preview (`generateMarkdown` in
    components/NewsletterPreview.tsx). The document is accumulated by `+=`;
    here it is a title block, ten headings each followed by the text the
    newsletter puts under it, and a footer (module Outline), so that
    statements about where a piece lands become statements about
    offsets. */
module Markdown {
  import opened Types
  import opened Text
  import opened Preview
  import opened Constants
  import Outline

  const Title: string := "# Mvuvi Group - Weekly Executive Summary"
  const Footer: string := "\n---\n*Confidential - Mvuvi Group Executive Intelligence Suite*"

  /** The section headings, in the order the document must present them. */
  const Headings: seq<string> := [
    "## Executive Overview",
    "## Operations Snapshot",
    "## Group Financials",
    "### Receivables Aging",
    "## Priorities & Support",
    "### Top Priorities",
    "### Executive Support Required",
    "## ESMS & Social Impact",
    "### Social Impact",
    "### Environmental"
  ]

  /** A markdown table line: `| c1 | c2 | ... |`. */
  function TableLine(cells: seq<string>): string
  {
    "| " + Join(cells, " | ") + " |"
  }

  /** The header line, one `| name ` per column. */
  const TableHeader: string :=
    "| Entity " + "| Status " + "| Revenue " + "| Target " + "| Variance " + "| Key Metrics " + "| Win " + "| Challenge " + "|"

  /** The alignment line: a left-alignment marker per column. */
  const TableAlign: string :=
    "| :--- " + "| :--- " + "| :--- " + "| :--- " + "| :--- " + "| :--- " + "| :--- " + "| :--- " + "|"

  /** The eight cells of a record's row. */
  function RowCells(num: Numerals, d: WeeklyData): seq<string>
  {
    [ EntityName(d.entityId),
      StatusLabel(d.status),
      Thousands(num, d.kpis.revenue),
      Thousands(num, d.kpis.revenueTarget),
      CalculateVariance(num, d.kpis.revenue, d.kpis.revenueTarget) + "%",
      KeyMetrics(num, d.kpis),
      d.operational.win,
      d.operational.challenge ]
  }

  /** One table line per record, in stored order. */
  function RowLines(num: Numerals, data: seq<WeeklyData>): (rows: seq<string>)
    ensures |rows| == |data|
    ensures forall i :: 0 <= i < |data| ==> rows[i] == TableLine(RowCells(num, data[i]))
  {
    seq(|data|, i requires 0 <= i < |data| => TableLine(RowCells(num, data[i])))
  }

  /** The lines of the operations table: header, alignment line, then the
      rows. */
  function TableLines(num: Numerals, data: seq<WeeklyData>): seq<string>
  {
    [TableHeader, TableAlign] + RowLines(num, data)
  }

  function Table(num: Numerals, data: seq<WeeklyData>): string
  {
    Lines(TableLines(num, data))
  }

  /** `- x` for every item, in order. */
  function BulletItems(xs: seq<string>): (items: seq<string>)
    ensures |items| == |xs|
    ensures forall i :: 0 <= i < |xs| ==> items[i] == "- " + xs[i]
  {
    seq(|xs|, i requires 0 <= i < |xs| => "- " + xs[i])
  }

  /** `xs.forEach(x => md += "- " + x + "\n")`. */
  function Bullets(xs: seq<string>): string
  {
    Lines(BulletItems(xs))
  }

  function OpeningLine(num: Numerals, opening: real): string
  {
    "- **Opening Cash Position:** " + Thousands(num, opening)
  }

  function InflowLine(num: Numerals, cashIn: real): string
  {
    "- **Weekly Inflow:** +" + Thousands(num, cashIn)
  }

  function OutflowLine(num: Numerals, cashOut: real): string
  {
    "- **Weekly Outflow:** -" + Thousands(num, cashOut)
  }

  /** The closing line is rendered from the stored closing value alone. */
  function ClosingLine(num: Numerals, closing: real): string
  {
    "- **Closing Cash Position:** **" + Thousands(num, closing) + "**"
  }

  /** The four cash lines, in the order they are printed. */
  function CashItems(num: Numerals, c: Cashflow): seq<string>
  {
    [OpeningLine(num, c.opening), InflowLine(num, c.cashIn), OutflowLine(num, c.cashOut), ClosingLine(num, c.closing)]
  }

  function CashLines(num: Numerals, c: Cashflow): string
  {
    Lines(CashItems(num, c))
  }

  /** The two receivables lines. */
  function ReceivableItems(num: Numerals, c: Cashflow): seq<string>
  {
    ["- **30-60 Days:** " + Thousands(num, c.receivables30), "- **60+ Days:** " + Thousands(num, c.receivables60)]
  }

  function ReceivableLines(num: Numerals, c: Cashflow): string
  {
    Lines(ReceivableItems(num, c))
  }

  function WeekLine(num: Numerals, n: Newsletter): string
  {
    "**Week Ending:** " + n.weekEnding
    + " | **Week:** " + num.text(n.weekNumber as real)
    + " | **Year:** " + num.text(n.year as real)
  }

  /** The title block: the title and the week line. */
  function Preamble(num: Numerals, n: Newsletter): string
  {
    Title + "\n\n" + WeekLine(num, n) + "\n\n"
  }

  /** The text `generateMarkdown` appends after each heading, up to the
      next heading (for the last one, up to the footer). */
  function Bodies(num: Numerals, n: Newsletter): seq<string>
  {
    [ "\n\n" + n.executiveSummary + "\n\n",
      "\n\n" + Table(num, n.data) + "\n",
      "\n\n" + CashLines(num, n.cashflow) + "\n",
      "\n\n" + ReceivableLines(num, n.cashflow) + "\n",
      "\n\n",
      "\n\n" + Bullets(n.priorities) + "\n",
      "\n\n" + Bullets(n.supportRequired) + "\n",
      "\n\n",
      "\n\n" + Bullets(n.esms.social) + "\n",
      "\n\n" + Bullets(n.esms.environmental) ]
  }

  /** The export laid out as headed sections. */
  function Render(num: Numerals, n: Newsletter): Outline.Layout
  {
    Outline.Layout(Preamble(num, n), Headings, Bodies(num, n), Footer)
  }

  /** Every heading of the export starts a line. */
  lemma RenderFits(num: Numerals, n: Newsletter)
    ensures Outline.Fits(Render(num, n))
  {
  }

  /** `generateMarkdown()`. */
  function GenerateMarkdown(num: Numerals, n: Newsletter): string
  {
    Outline.Document(Render(num, n))
  }

  /** Where heading `j` starts in the export. */
  function HeadingPosition(num: Numerals, n: Newsletter, j: nat): nat
    requires j < |Headings|
  {
    Outline.HeadingPosition(Render(num, n), j)
  }

  /** The document opens with the title, and the week line follows it;
      the overview heading starts right where that title block ends. */
  lemma StartsWithTitle(num: Numerals, n: Newsletter)
    ensures OccursAt(GenerateMarkdown(num, n), Title + "\n\n" + WeekLine(num, n) + "\n\n", 0)
    ensures OccursAt(GenerateMarkdown(num, n), Title, 0)
    ensures HeadingPosition(num, n, 0) == |Title + "\n\n" + WeekLine(num, n) + "\n\n"|
  {
    Outline.StartsWithPreamble(Render(num, n));
    PrefixAppend(Title, "\n\n" + WeekLine(num, n) + "\n\n");
    OccursPrefix(GenerateMarkdown(num, n), Title, Preamble(num, n), 0);
    assert HeadingPosition(num, n, 0) == |Preamble(num, n)| by {
      var sections := Outline.Sections(Render(num, n));
      assert sections[..1] == [Preamble(num, n)];
      ConcatCons(sections[..1]);
    }
  }

  /** The document closes with the confidentiality footer. */
  lemma EndsWithFooter(num: Numerals, n: Newsletter)
    ensures OccursAt(GenerateMarkdown(num, n), Footer, Outline.FooterPosition(Render(num, n)))
    ensures Outline.FooterPosition(Render(num, n)) + |Footer| == |GenerateMarkdown(num, n)|
  {
    Outline.EndsWithFooter(Render(num, n));
  }

  /** Every section heading appears, each at the start of a line, in the
      fixed order: each heading ends before the next one starts. */
  lemma SectionsInOrder(num: Numerals, n: Newsletter)
    ensures forall j :: 0 <= j < |Headings| ==>
      OccursAt(GenerateMarkdown(num, n), Headings[j], HeadingPosition(num, n, j))
      && 0 < HeadingPosition(num, n, j)
      && GenerateMarkdown(num, n)[HeadingPosition(num, n, j) - 1] == NL
    ensures forall i, j :: 0 <= i < j < |Headings| ==>
      HeadingPosition(num, n, i) + |Headings[i]| <= HeadingPosition(num, n, j)
  {
    RenderFits(num, n);
    Outline.SectionsInOrder(Render(num, n));
  }

  /** Heading `j`, its body and the next heading, at heading `j`'s
      position. */
  lemma Between(num: Numerals, n: Newsletter, j: nat)
    requires j + 1 < |Headings|
    ensures OccursAt(GenerateMarkdown(num, n), Headings[j] + Bodies(num, n)[j] + Headings[j + 1], HeadingPosition(num, n, j))
  {
    RenderFits(num, n);
    Outline.Between(Render(num, n), j);
  }

  /** Heading `j + 1` starts right where heading `j` and its body end, so
      body `j` is all the text between the two headings. */
  lemma NextHeading(num: Numerals, n: Newsletter, j: nat)
    requires j + 1 < |Headings|
    ensures HeadingPosition(num, n, j + 1) == HeadingPosition(num, n, j) + |Headings[j] + Bodies(num, n)[j]|
  {
    Outline.NextHeading(Render(num, n), j);
  }

  /** The overview holds the stored summary verbatim. */
  lemma OverviewSection(num: Numerals, n: Newsletter)
    ensures OccursAt(GenerateMarkdown(num, n),
      Headings[0] + ("\n\n" + n.executiveSummary + "\n\n") + Headings[1], HeadingPosition(num, n, 0))
  {
    Between(num, n, 0);
  }

  /** The operations section is the table of all records. */
  lemma OperationsSection(num: Numerals, n: Newsletter)
    ensures OccursAt(GenerateMarkdown(num, n),
      Headings[1] + ("\n\n" + Table(num, n.data) + "\n") + Headings[2], HeadingPosition(num, n, 1))
  {
    Between(num, n, 1);
  }

  /** The financials section lists the cash lines. */
  lemma FinancialsSection(num: Numerals, n: Newsletter)
    ensures OccursAt(GenerateMarkdown(num, n),
      Headings[2] + ("\n\n" + CashLines(num, n.cashflow) + "\n") + Headings[3], HeadingPosition(num, n, 2))
  {
    Between(num, n, 2);
  }

  /** The receivables subsection lists both aging buckets. */
  lemma ReceivablesSection(num: Numerals, n: Newsletter)
    ensures OccursAt(GenerateMarkdown(num, n),
      Headings[3] + ("\n\n" + ReceivableLines(num, n.cashflow) + "\n") + Headings[4], HeadingPosition(num, n, 3))
  {
    Between(num, n, 3);
  }

  /** The "Priorities & Support" heading has no text of its own: the first
      subsection heading follows after a blank line. */
  lemma PrioritiesAndSupportHeading(num: Numerals, n: Newsletter)
    ensures OccursAt(GenerateMarkdown(num, n), Headings[4] + "\n\n" + Headings[5], HeadingPosition(num, n, 4))
  {
    Between(num, n, 4);
  }

  /** The priorities subsection: the priority bullets and nothing else. */
  lemma PrioritiesSection(num: Numerals, n: Newsletter)
    ensures OccursAt(GenerateMarkdown(num, n),
      Headings[5] + ("\n\n" + Bullets(n.priorities) + "\n") + Headings[6], HeadingPosition(num, n, 5))
  {
    Between(num, n, 5);
  }

  /** The support subsection: the support bullets and nothing else. */
  lemma SupportSection(num: Numerals, n: Newsletter)
    ensures OccursAt(GenerateMarkdown(num, n),
      Headings[6] + ("\n\n" + Bullets(n.supportRequired) + "\n") + Headings[7], HeadingPosition(num, n, 6))
  {
    Between(num, n, 6);
  }

  /** The social subsection: every social note, not just the first two the
      screen shows. */
  lemma SocialSection(num: Numerals, n: Newsletter)
    ensures OccursAt(GenerateMarkdown(num, n),
      Headings[8] + ("\n\n" + Bullets(n.esms.social) + "\n") + Headings[9], HeadingPosition(num, n, 8))
  {
    Between(num, n, 8);
  }

  /** The environmental subsection: every environmental note, then the
      footer, which ends the document. */
  lemma EnvironmentalSection(num: Numerals, n: Newsletter)
    ensures OccursAt(GenerateMarkdown(num, n),
      Headings[9] + ("\n\n" + Bullets(n.esms.environmental)) + Footer, HeadingPosition(num, n, 9))
    ensures HeadingPosition(num, n, 9) + |Headings[9] + ("\n\n" + Bullets(n.esms.environmental)) + Footer|
      == |GenerateMarkdown(num, n)|
  {
    Outline.LastSection(Render(num, n));
  }

  /** The free-text fields of a record that end up in its table row hold no
      line break. */
  predicate RecordLineFree(d: WeeklyData)
  {
    NL !in d.entityId && NL !in d.operational.win && NL !in d.operational.challenge
  }

  lemma RosterLineFree(id: string)
    requires NL !in id
    ensures NL !in EntityName(id)
  {
    match FindIndex(Entities, id)
    case Some(i) => RosterNamesOneLine(i);
    case None =>
  }

  lemma ThousandsLineFree(num: Numerals, x: real)
    requires LineFree(num)
    ensures NL !in Thousands(num, x)
  {
    assert NL !in num.fixed0(x / 1000.0);
  }

  lemma KeyMetricsLineFree(num: Numerals, k: Kpis)
    requires LineFree(num)
    ensures NL !in KeyMetrics(num, k)
  {
    assert NL !in ShowOpt(num, k.production) && NL !in ShowOpt(num, k.mortality);
    assert NL !in ShowOpt(num, k.salesVolume) && NL !in ShowOpt(num, k.fulfillmentRate);
  }

  lemma StatusLineFree(s: Status)
    ensures NL !in StatusLabel(s)
  {
    match s
    case Green =>
    case Amber =>
    case Red =>
  }

  lemma CellsLineFree(num: Numerals, d: WeeklyData)
    requires LineFree(num) && RecordLineFree(d)
    ensures forall i :: 0 <= i < |RowCells(num, d)| ==> NL !in RowCells(num, d)[i]
  {
    var variance := CalculateVariance(num, d.kpis.revenue, d.kpis.revenueTarget);
    RosterLineFree(d.entityId);
    StatusLineFree(d.status);
    ThousandsLineFree(num, d.kpis.revenue);
    ThousandsLineFree(num, d.kpis.revenueTarget);
    assert NL !in variance + "%" by {
      assert NL !in variance;
      LineFreeAppend(variance, "%");
    }
    KeyMetricsLineFree(num, d.kpis);
    EightLineFree(EntityName(d.entityId), StatusLabel(d.status),
      Thousands(num, d.kpis.revenue), Thousands(num, d.kpis.revenueTarget), variance + "%",
      KeyMetrics(num, d.kpis), d.operational.win, d.operational.challenge);
  }

  lemma EightLineFree(a: string, b: string, c: string, d: string, e: string, f: string, g: string, h: string)
    requires NL !in a && NL !in b && NL !in c && NL !in d
    requires NL !in e && NL !in f && NL !in g && NL !in h
    ensures forall i :: 0 <= i < 8 ==> NL !in [a, b, c, d, e, f, g, h][i]
  {
  }

  /** A table line of line break-free cells is a single line. */
  lemma TableLineFree(cells: seq<string>)
    requires forall i :: 0 <= i < |cells| ==> NL !in cells[i]
    ensures NL !in TableLine(cells)
  {
    JoinLineFree(cells, " | ");
  }

  lemma HeaderLineFree()
    ensures NL !in TableHeader && NL !in TableAlign
  {
  }

  lemma TableLinesFree(num: Numerals, data: seq<WeeklyData>)
    requires LineFree(num)
    requires forall i :: 0 <= i < |data| ==> RecordLineFree(data[i])
    ensures forall i :: 0 <= i < |TableLines(num, data)| ==> NL !in TableLines(num, data)[i]
  {
    var rows := RowLines(num, data);
    forall i | 0 <= i < |rows|
      ensures NL !in rows[i]
    {
      CellsLineFree(num, data[i]);
      TableLineFree(RowCells(num, data[i]));
    }
    HeaderLineFree();
  }

  /** Splitting the table into lines gives the header, the alignment line
      and then exactly one line per record, in stored order. */
  lemma TableOneRowPerRecord(num: Numerals, data: seq<WeeklyData>)
    requires LineFree(num)
    requires forall i :: 0 <= i < |data| ==> RecordLineFree(data[i])
    ensures Split(Table(num, data)) == [TableHeader, TableAlign] + RowLines(num, data) + [""]
    ensures |Split(Table(num, data))| == |data| + 3
  {
    TableLinesFree(num, data);
    SplitLines(TableLines(num, data));
  }

  /** A list of line break-free items renders one bullet line per item, in
      order. */
  lemma BulletPerItem(xs: seq<string>)
    requires forall i :: 0 <= i < |xs| ==> NL !in xs[i]
    ensures Split(Bullets(xs)) == BulletItems(xs) + [""]
  {
    SplitLines(BulletItems(xs));
  }

  /** The last cash line shows the stored closing balance: nothing
      recomputes it from the other three figures, so changing those leaves
      it as it was. */
  lemma ClosingLineStored(num: Numerals, c: Cashflow, opening: real, cashIn: real, cashOut: real)
    ensures |CashItems(num, c)| == 4 && CashItems(num, c)[3] == ClosingLine(num, c.closing)
    ensures CashItems(num, c.(opening := opening, cashIn := cashIn, cashOut := cashOut))[3] == CashItems(num, c)[3]
  {
  }

  /** The cash block is four lines, one per figure, in order. */
  lemma CashOnePerLine(num: Numerals, c: Cashflow)
    requires LineFree(num)
    ensures Split(CashLines(num, c)) == CashItems(num, c) + [""]
  {
    CashItemsLineFree(num, c);
    SplitLines(CashItems(num, c));
  }

  lemma CashItemsLineFree(num: Numerals, c: Cashflow)
    requires LineFree(num)
    ensures forall i :: 0 <= i < |CashItems(num, c)| ==> NL !in CashItems(num, c)[i]
  {
    ThousandsLineFree(num, c.opening);
    ThousandsLineFree(num, c.cashIn);
    ThousandsLineFree(num, c.cashOut);
    ThousandsLineFree(num, c.closing);
  }

  /** The receivables block is two lines, one per bucket. */
  lemma ReceivablesOnePerLine(num: Numerals, c: Cashflow)
    requires LineFree(num)
    ensures Split(ReceivableLines(num, c)) == ReceivableItems(num, c) + [""]
  {
    ThousandsLineFree(num, c.receivables30);
    ThousandsLineFree(num, c.receivables60);
    SplitLines(ReceivableItems(num, c));
  }

  /** With no priorities the subsection is its heading, a blank line and
      the next heading. */
  lemma EmptyPriorities(num: Numerals, n: Newsletter)
    requires n.priorities == []
    ensures OccursAt(GenerateMarkdown(num, n), Headings[5] + "\n\n\n" + Headings[6], HeadingPosition(num, n, 5))
  {
    PrioritiesSection(num, n);
    assert Bullets(n.priorities) == "";
    assert Headings[5] + ("\n\n" + Bullets(n.priorities) + "\n") + Headings[6] == Headings[5] + "\n\n\n" + Headings[6];
  }

  /** Compliance notes never reach the document. */
  lemma ComplianceNotEmitted(num: Numerals, n: Newsletter, compliance: seq<string>)
    ensures GenerateMarkdown(num, n) == GenerateMarkdown(num, n.(esms := n.esms.(compliance := compliance)))
  {
    var m := n.(esms := n.esms.(compliance := compliance));
    assert Render(num, n) == Render(num, m);
  }
}
