/** The state the editor console keeps (App.tsx): the initial newsletter,
    the updates its inputs make, the context handed to the summary service,
    and what the "generate" action does with the service's outcome. Every
    update is a pure function from the old state to the new one. */
module App {
  import opened Types
  import opened Text
  import opened Constants
  import opened Preview
  import SummaryService
  import Markdown

  // ---------------------------------------------------------------------
  // The initial state
  // ---------------------------------------------------------------------

  /** The optional KPIs a record of entity type `t` carries. */
  function ShapeFields(t: EntityType): set<KpiField>
  {
    if t == Farm then FarmFields else DistributionFields
  }

  /** The starting figures of a record: a farm slightly behind its revenue
      target with production figures, a distribution business ahead of its
      target with sales figures. */
  function InitialKpis(t: EntityType): (k: Kpis)
    ensures Presence(k) == ShapeFields(t)
    ensures k.newCustomers.None?
    ensures t == Farm ==> k.revenue < k.revenueTarget
    ensures t == Distribution ==> k.revenue > k.revenueTarget
  {
    var k :=
      if t == Farm then
        Kpis(45000.0, 50000.0, Some(12.5), Some(13.0), Some(1.45), Some(2.1), None, None, None, None)
      else
        Kpis(95000.0, 90000.0, None, None, None, None, Some(28.5), Some(27.0), None, Some(96.0));
    assert forall f :: f in Presence(k) <==> f in ShapeFields(t) by {
      forall f
        ensures f in Presence(k) <==> f in ShapeFields(t)
      {
        if t == Farm {
          assert f in ShapeFields(t) <==> f in {Production, ProductionTarget, Mortality, Fcr};
        } else {
          assert f in ShapeFields(t) <==> f in {SalesVolume, SalesTarget, FulfillmentRate};
        }
      }
    }
    k
  }

  const InitialWin: string := "On-schedule operations maintained."
  const InitialChallenge: string := "Minor logistics delays noted."

  /** The starting record of entity `e`: green, with the shape's figures. */
  function InitialRecord(e: Entity): WeeklyData
  {
    WeeklyData(e.id, Green, InitialKpis(e.entityType), Operational(InitialWin, InitialChallenge))
  }

  const InitialPriorities: seq<string> := [
    "Resolve cross-border feed logistics for Chicoa.",
    "Finalize cold storage expansion in Harare for Lake Harvest Distribution.",
    "Improve fulfillment in Pende Malawi hub."
  ]

  const InitialSupport: seq<string> := [
    "Approve $45K Capex for solar aeration at Kariba Harvest hub.",
    "Review alternate feed supplier contracts for Q2."
  ]

  const InitialEsms: Esms := Esms(
    ["Water quality within ISO standards.", "Effluent monitoring systems calibrated."],
    ["Zero LTIs (Lost Time Injuries) recorded.", "Community outreach in Beira launched."],
    ["All licensing up to date."])

  /** The newsletter the console opens with: week 3 of 2026, one record per
      roster entry, a placeholder summary and fixed cash figures. */
  function InitialNewsletter(): Newsletter
  {
    Newsletter(
      3, 2026, "2026-01-17", "Pending generation...",
      seq(|Entities|, i requires 0 <= i < |Entities| => InitialRecord(Entities[i])),
      Cashflow(1250000.0, 292000.0, 315000.0, 1227000.0, 145000.0, 38000.0),
      InitialPriorities, InitialSupport, InitialEsms)
  }

  /** The records line up with the roster: record `i` belongs to roster
      entry `i`, and carries exactly the optional KPIs of that entry's
      type. */
  predicate WellFormed(n: Newsletter)
  {
    |n.data| == |Entities|
    && forall i :: 0 <= i < |n.data| ==>
      n.data[i].entityId == Entities[i].id
      && Presence(n.data[i].kpis) == ShapeFields(Entities[i].entityType)
  }

  /** The console starts well formed: one green record per roster entry, in
      roster order, each with its type's KPIs and no customer count. */
  lemma InitialState()
    ensures WellFormed(InitialNewsletter())
    ensures forall i :: 0 <= i < |Entities| ==>
      InitialNewsletter().data[i].status == Green
      && InitialNewsletter().data[i].kpis.newCustomers.None?
      && InitialNewsletter().data[i].operational == Operational(InitialWin, InitialChallenge)
  {
    var n := InitialNewsletter();
    forall i | 0 <= i < |Entities|
      ensures n.data[i].entityId == Entities[i].id
      ensures Presence(n.data[i].kpis) == ShapeFields(Entities[i].entityType)
      ensures n.data[i].kpis.newCustomers.None?
    {
      assert n.data[i] == InitialRecord(Entities[i]);
    }
  }

  // ---------------------------------------------------------------------
  // Record updates
  // ---------------------------------------------------------------------

  /** `Partial<WeeklyData>`: the fields to overwrite; `None` leaves a field
      alone. */
  datatype RecordPatch = RecordPatch(
    entityId: Option<string>,
    status: Option<Status>,
    kpis: Option<Kpis>,
    operational: Option<Operational>)

  /** `{ ...d, ...p }`. */
  function ApplyPatch(d: WeeklyData, p: RecordPatch): (r: WeeklyData)
    ensures r.entityId == (if p.entityId.Some? then p.entityId.value else d.entityId)
    ensures r.status == (if p.status.Some? then p.status.value else d.status)
    ensures r.kpis == (if p.kpis.Some? then p.kpis.value else d.kpis)
    ensures r.operational == (if p.operational.Some? then p.operational.value else d.operational)
  {
    WeeklyData(
      match p.entityId case Some(x) => x case None => d.entityId,
      match p.status case Some(x) => x case None => d.status,
      match p.kpis case Some(x) => x case None => d.kpis,
      match p.operational case Some(x) => x case None => d.operational)
  }

  /** `updateEntityData(idx, updates)`: record `idx` takes the patched
      fields; every other record and every other newsletter field stays as
      it was. */
  function UpdateEntityData(n: Newsletter, idx: nat, p: RecordPatch): (r: Newsletter)
    requires idx < |n.data|
    ensures |r.data| == |n.data|
    ensures r.data[idx] == ApplyPatch(n.data[idx], p)
    ensures forall i :: 0 <= i < |n.data| && i != idx ==> r.data[i] == n.data[i]
    ensures r == n.(data := r.data)
  {
    n.(data := n.data[idx := ApplyPatch(n.data[idx], p)])
  }

  /** `updateKPI(idx, field, val)`: only `kpis[field]` of record `idx`
      changes. */
  function UpdateKpi(n: Newsletter, idx: nat, f: KpiField, v: real): (r: Newsletter)
    requires idx < |n.data|
    ensures |r.data| == |n.data|
    ensures Get(r.data[idx].kpis, f) == Some(v)
    ensures forall g :: g != f ==> Get(r.data[idx].kpis, g) == Get(n.data[idx].kpis, g)
    ensures r.data[idx] == n.data[idx].(kpis := r.data[idx].kpis)
    ensures forall i :: 0 <= i < |n.data| && i != idx ==> r.data[i] == n.data[i]
    ensures r == n.(data := r.data)
  {
    var d := n.data[idx];
    n.(data := n.data[idx := d.(kpis := Set(d.kpis, f, v))])
  }

  /** Setting revenue or its target leaves the set of present optional KPIs
      as it was. */
  lemma RevenueKeepsPresence(k: Kpis, f: KpiField, v: real)
    requires f == Revenue || f == RevenueTarget
    ensures Presence(Set(k, f, v)) == Presence(k)
  {
    var r := Set(k, f, v);
    assert forall g :: g in OptionalFields ==> Get(r, g) == Get(k, g);
  }

  // ---------------------------------------------------------------------
  // Cashflow and list edits
  // ---------------------------------------------------------------------

  /** The three cash figures the editor has inputs for. */
  datatype CashField = Opening | CashIn | CashOut

  /** One cash input's `onChange`: that figure takes the entered value. */
  function EditCashflow(n: Newsletter, f: CashField, v: real): (r: Newsletter)
    ensures r.cashflow.opening == (if f == Opening then v else n.cashflow.opening)
    ensures r.cashflow.cashIn == (if f == CashIn then v else n.cashflow.cashIn)
    ensures r.cashflow.cashOut == (if f == CashOut then v else n.cashflow.cashOut)
    ensures r == n.(cashflow := r.cashflow)
  {
    match f
    case Opening => n.(cashflow := n.cashflow.(opening := v))
    case CashIn => n.(cashflow := n.cashflow.(cashIn := v))
    case CashOut => n.(cashflow := n.cashflow.(cashOut := v))
  }

  /** The closing balance and the receivables are never touched by a cash
      edit, and the export's closing line does not move with the other
      three figures. */
  lemma CashEditKeepsClosing(num: Numerals, n: Newsletter, f: CashField, v: real)
    ensures EditCashflow(n, f, v).cashflow.closing == n.cashflow.closing
    ensures EditCashflow(n, f, v).cashflow.receivables30 == n.cashflow.receivables30
    ensures EditCashflow(n, f, v).cashflow.receivables60 == n.cashflow.receivables60
    ensures Markdown.CashItems(num, EditCashflow(n, f, v).cashflow)[3] == Markdown.CashItems(num, n.cashflow)[3]
  {
    var c := EditCashflow(n, f, v).cashflow;
    Markdown.ClosingLineStored(num, n.cashflow, c.opening, c.cashIn, c.cashOut);
  }

  /** What a list's textarea shows: the items joined by line breaks. */
  function ListText(xs: seq<string>): string
  {
    Join(xs, "\n")
  }

  /** The priorities textarea's `onChange`: the typed text split at line
      breaks. The textarea then shows exactly what was typed. */
  function EditPriorities(n: Newsletter, text: string): (r: Newsletter)
    ensures ListText(r.priorities) == text
    ensures |r.priorities| == multiset(text)[NL] + 1
    ensures r == n.(priorities := r.priorities)
  {
    JoinSplit(text);
    n.(priorities := Split(text))
  }

  /** The support textarea's `onChange`, the same way. */
  function EditSupport(n: Newsletter, text: string): (r: Newsletter)
    ensures ListText(r.supportRequired) == text
    ensures |r.supportRequired| == multiset(text)[NL] + 1
    ensures r == n.(supportRequired := r.supportRequired)
  {
    JoinSplit(text);
    n.(supportRequired := Split(text))
  }

  /** A line break typed into the priorities or support box starts a new
      item, so the export prints exactly one bullet line per stored item. */
  lemma EditedListsOneBulletPerItem(n: Newsletter, text: string)
    ensures Split(Markdown.Bullets(EditPriorities(n, text).priorities))
      == Markdown.BulletItems(EditPriorities(n, text).priorities) + [""]
    ensures Split(Markdown.Bullets(EditSupport(n, text).supportRequired))
      == Markdown.BulletItems(EditSupport(n, text).supportRequired) + [""]
  {
    Markdown.BulletPerItem(EditPriorities(n, text).priorities);
    Markdown.BulletPerItem(EditSupport(n, text).supportRequired);
  }

  /** Re-entering the text a list shows leaves it unchanged exactly when it
      is nonempty and no item holds a line break: an empty list comes back
      as one empty item, and an item with a line break comes back as
      several. */
  lemma ListTextRoundTrip(n: Newsletter)
    ensures EditPriorities(n, ListText(n.priorities)) == n <==>
      |n.priorities| > 0 && forall i :: 0 <= i < |n.priorities| ==> NL !in n.priorities[i]
    ensures EditSupport(n, ListText(n.supportRequired)) == n <==>
      |n.supportRequired| > 0 && forall i :: 0 <= i < |n.supportRequired| ==> NL !in n.supportRequired[i]
  {
    SplitJoin(n.priorities);
    SplitJoin(n.supportRequired);
  }

  // ---------------------------------------------------------------------
  // Editor sessions
  // ---------------------------------------------------------------------

  /** The inputs of the editor, each with the update it makes. */
  datatype Edit =
    | SetRevenue(idx: nat, value: real)
    | SetRevenueTarget(idx: nat, value: real)
    | SetStatus(idx: nat, status: Status)
    | SetWin(idx: nat, text: string)
    | SetChallenge(idx: nat, text: string)
    | SetCash(field: CashField, value: real)
    | SetPriorities(text: string)
    | SetSupport(text: string)

  /** The edit targets an existing record, or no record at all. */
  predicate Targets(e: Edit, count: nat)
  {
    (e.SetRevenue? || e.SetRevenueTarget? || e.SetStatus? || e.SetWin? || e.SetChallenge?) ==> e.idx < count
  }

  function ApplyEdit(n: Newsletter, e: Edit): (r: Newsletter)
    requires Targets(e, |n.data|)
    ensures |r.data| == |n.data|
  {
    match e
    case SetRevenue(idx, v) => UpdateKpi(n, idx, Revenue, v)
    case SetRevenueTarget(idx, v) => UpdateKpi(n, idx, RevenueTarget, v)
    case SetStatus(idx, s) => UpdateEntityData(n, idx, RecordPatch(None, Some(s), None, None))
    case SetWin(idx, text) =>
      UpdateEntityData(n, idx, RecordPatch(None, None, None, Some(n.data[idx].operational.(win := text))))
    case SetChallenge(idx, text) =>
      UpdateEntityData(n, idx, RecordPatch(None, None, None, Some(n.data[idx].operational.(challenge := text))))
    case SetCash(f, v) => EditCashflow(n, f, v)
    case SetPriorities(text) => EditPriorities(n, text)
    case SetSupport(text) => EditSupport(n, text)
  }

  /** The newsletter after a run of edits, in order. */
  function RunEdits(n: Newsletter, edits: seq<Edit>): Newsletter
    requires forall k :: 0 <= k < |edits| ==> Targets(edits[k], |n.data|)
    decreases |edits|
  {
    if |edits| == 0 then n else RunEdits(ApplyEdit(n, edits[0]), edits[1..])
  }

  /** What no editor input can change. */
  predicate Fixed(n: Newsletter, m: Newsletter)
  {
    m.weekNumber == n.weekNumber && m.year == n.year && m.weekEnding == n.weekEnding
    && m.executiveSummary == n.executiveSummary
    && m.cashflow.closing == n.cashflow.closing
    && m.cashflow.receivables30 == n.cashflow.receivables30
    && m.cashflow.receivables60 == n.cashflow.receivables60
    && m.esms == n.esms
    && |m.data| == |n.data|
    && forall i :: 0 <= i < |n.data| ==> m.data[i].entityId == n.data[i].entityId
  }

  /** One edit keeps the newsletter well formed and changes nothing the
      editor has no input for. */
  lemma EditKeepsInvariants(n: Newsletter, e: Edit)
    requires WellFormed(n) && Targets(e, |n.data|)
    ensures WellFormed(ApplyEdit(n, e)) && Fixed(n, ApplyEdit(n, e))
  {
    var r := ApplyEdit(n, e);
    match e
    case SetRevenue(idx, v) =>
      RevenueKeepsPresence(n.data[idx].kpis, Revenue, v);
    case SetRevenueTarget(idx, v) =>
      RevenueKeepsPresence(n.data[idx].kpis, RevenueTarget, v);
    case _ =>
  }

  /** Any run of editor inputs keeps the newsletter well formed, never
      touches the week, the summary, the closing balance, the receivables
      or the ESMS notes, and never reorders or re-labels the records. */
  lemma {:induction false} EditorKeepsInvariants(n: Newsletter, edits: seq<Edit>)
    requires WellFormed(n)
    requires forall k :: 0 <= k < |edits| ==> Targets(edits[k], |n.data|)
    ensures WellFormed(RunEdits(n, edits)) && Fixed(n, RunEdits(n, edits))
    decreases |edits|
  {
    if |edits| > 0 {
      var m := ApplyEdit(n, edits[0]);
      EditKeepsInvariants(n, edits[0]);
      EditorKeepsInvariants(m, edits[1..]);
    }
  }

  // ---------------------------------------------------------------------
  // The summary context
  // ---------------------------------------------------------------------

  /** `${e?.name}` for the first roster entry with the record's id: its name
      exactly (even an empty one), or the word "undefined" when none has
      that id. */
  function ContextName(id: string): (name: string)
    ensures (forall i :: 0 <= i < |Entities| ==> Entities[i].id != id) ==> name == "undefined"
    ensures forall i :: 0 <= i < |Entities| && Entities[i].id == id ==>
      exists j :: 0 <= j <= i && Entities[j].id == id && name == Entities[j].name
  {
    match FindIndex(Entities, id)
    case Some(i) => Entities[i].name
    case None => "undefined"
  }

  /** The context segment of one record. */
  function ContextLine(num: Numerals, d: WeeklyData): string
  {
    ContextName(d.entityId) + ": Revenue $" + num.text(d.kpis.revenue)
    + " vs $" + num.text(d.kpis.revenueTarget)
    + ". Win: " + d.operational.win
    + ". Challenge: " + d.operational.challenge
  }

  /** One segment per record, in stored order. */
  function ContextLines(num: Numerals, data: seq<WeeklyData>): (lines: seq<string>)
    ensures |lines| == |data|
    ensures forall i :: 0 <= i < |data| ==> lines[i] == ContextLine(num, data[i])
  {
    seq(|data|, i requires 0 <= i < |data| => ContextLine(num, data[i]))
  }

  /** The context `handleGenerateSummary` sends: the segments joined by
      line breaks. */
  function BuildContext(num: Numerals, data: seq<WeeklyData>): string
  {
    Join(ContextLines(num, data), "\n")
  }

  /** The free text a record contributes to its context segment holds no
      line break. */
  predicate ContextLineFree(d: WeeklyData)
  {
    NL !in ContextName(d.entityId) && NL !in d.operational.win && NL !in d.operational.challenge
  }

  /** A segment built from line break-free parts is a single line. */
  lemma SegmentOneLine(name: string, revenue: string, target: string, win: string, challenge: string)
    requires NL !in name && NL !in revenue && NL !in target && NL !in win && NL !in challenge
    ensures NL !in name + ": Revenue $" + revenue + " vs $" + target + ". Win: " + win + ". Challenge: " + challenge
  {
    assert NL !in ": Revenue $" && NL !in " vs $" && NL !in ". Win: " && NL !in ". Challenge: ";
  }

  /** A record's segment is a single line when its free text is. */
  lemma ContextLineOneLine(num: Numerals, d: WeeklyData)
    requires LineFree(num) && ContextLineFree(d)
    ensures NL !in ContextLine(num, d)
  {
    SegmentOneLine(ContextName(d.entityId), num.text(d.kpis.revenue), num.text(d.kpis.revenueTarget),
      d.operational.win, d.operational.challenge);
  }

  /** With line break-free text, splitting the context at line breaks
      gives back exactly one segment per record, in stored order; with no
      records the context is empty. */
  lemma ContextOneLinePerRecord(num: Numerals, data: seq<WeeklyData>)
    requires LineFree(num)
    requires forall i :: 0 <= i < |data| ==> ContextLineFree(data[i])
    ensures |data| > 0 ==> Split(BuildContext(num, data)) == ContextLines(num, data)
    ensures |data| == 0 ==> BuildContext(num, data) == ""
  {
    var lines := ContextLines(num, data);
    forall i | 0 <= i < |lines|
      ensures NL !in lines[i]
    {
      ContextLineOneLine(num, data[i]);
    }
    if |data| > 0 {
      SplitJoinPlain(lines);
    }
  }

  /** A record of a roster entry is named by that entry in the context, and
      the roster's names hold no line break. */
  lemma RosterContextNames(i: nat)
    requires i < |Entities|
    ensures ContextName(Entities[i].id) == Entities[i].name
    ensures NL !in ContextName(Entities[i].id)
  {
    FindOwnId(i);
    RosterNamesOneLine(i);
  }

  // ---------------------------------------------------------------------
  // Generating the summary
  // ---------------------------------------------------------------------

  datatype Tab = EditorTab | PreviewTab

  /** The console: the newsletter, the visible tab, and whether a summary
      request is in flight. */
  datatype Session = Session(newsletter: Newsletter, tab: Tab, isGenerating: bool)

  /** `handleGenerateSummary` once the service has settled with `outcome`:
      a resolved summary is stored verbatim and the preview is shown; a
      thrown error leaves the newsletter and the tab alone. Either way the
      request is no longer in flight. */
  function SettleSummary(s: Session, outcome: SummaryService.Outcome): (r: Session)
    ensures !r.isGenerating
    ensures outcome.Resolved? ==>
      r.newsletter == s.newsletter.(executiveSummary := outcome.summary) && r.tab == PreviewTab
    ensures outcome.Threw? ==> r.newsletter == s.newsletter && r.tab == s.tab
  {
    match outcome
    case Resolved(summary) => Session(s.newsletter.(executiveSummary := summary), PreviewTab, false)
    case Threw(_) => s.(isGenerating := false)
  }

  /** The whole action: the request starts, the service sees the API key
      and the model's reply, and the session settles with its outcome.
      `reply` is what the model answers to a prompt embedding
      `BuildContext(num, s.newsletter.data)`, the context of App.tsx:75-78
      passed at line 81; the model itself is outside this project, so the
      reply is a parameter and the context reaches the outcome only
      through it. */
  function GenerateSummary(s: Session, apiKey: Option<string>, reply: SummaryService.Reply): Session
  {
    SettleSummary(s.(isGenerating := true), SummaryService.GenerateExecutiveSummary(apiKey, reply))
  }

  /** Without an API key nothing changes but the in-flight flag; with one
      the summary is always replaced: by the reply's text when it has any,
      otherwise by one of the service's fallback texts, which then reaches
      the export like any summary. */
  lemma GenerateOutcomes(s: Session, apiKey: Option<string>, reply: SummaryService.Reply)
    ensures !SummaryService.HasKey(apiKey) ==> GenerateSummary(s, apiKey, reply) == s.(isGenerating := false)
    ensures SummaryService.HasKey(apiKey) && SummaryService.HasText(reply) ==>
      GenerateSummary(s, apiKey, reply).newsletter == s.newsletter.(executiveSummary := reply.text.value)
    ensures SummaryService.HasKey(apiKey) && !SummaryService.HasText(reply) ==>
      GenerateSummary(s, apiKey, reply).newsletter.executiveSummary
        in {SummaryService.EmptyReplyText, SummaryService.CallFailedText}
    ensures SummaryService.HasKey(apiKey) ==>
      GenerateSummary(s, apiKey, reply).tab == PreviewTab
      && GenerateSummary(s, apiKey, reply).newsletter == s.newsletter.(executiveSummary := GenerateSummary(s, apiKey, reply).newsletter.executiveSummary)
  {
  }

  /** A generated summary appears verbatim under the overview heading of
      the export. */
  lemma SummaryReachesExport(num: Numerals, s: Session, apiKey: Option<string>, reply: SummaryService.Reply)
    requires SummaryService.HasKey(apiKey) && SummaryService.HasText(reply)
    ensures OccursAt(Markdown.GenerateMarkdown(num, GenerateSummary(s, apiKey, reply).newsletter),
      Markdown.Headings[0] + ("\n\n" + reply.text.value + "\n\n") + Markdown.Headings[1],
      Markdown.HeadingPosition(num, GenerateSummary(s, apiKey, reply).newsletter, 0))
  {
    var n := GenerateSummary(s, apiKey, reply).newsletter;
    Markdown.OverviewSection(num, n);
  }
}
