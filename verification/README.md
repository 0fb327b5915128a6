# Mvuvi Pulse newsletter core, modelled in Dafny

Mvuvi Pulse is a small React console that keeps a weekly executive newsletter for the Mvuvi Group. The group has five business units: three farms and two distribution businesses. The newsletter holds, for each unit, a status, KPIs, a win and a challenge. It also holds the group's cash figures, priority and support lists, ESMS notes and an AI-written executive summary. The console offers two views:

- an editor, which updates the newsletter;
- a preview, which derives display values from it and exports it as markdown.

This project models the logic behind both, as pure functions over immutable datatypes, and proves what that logic promises.

- **`Types`** (types.dfy) is the data model. Optional KPIs are `Option<real>`, and `None` stands for `undefined`.
- **`Constants`** (constants.dfy) holds the unit roster and the lookup by id.
- **`Text`** (text.dfy) holds the string machinery:
  - concatenation of appended pieces, with offsets;
  - `join`, and `split('\n')` with its round-trip laws;
  - the accumulation of lines by `forEach(... md += x + '\n')`;
  - ASCII `toUpperCase`.
- **`Preview`** (preview.dfy) holds the derived display values:
  - entity names and the revenue variance;
  - the status label and the Key Metrics cell;
  - the revenue trend arrow and the metric blocks of a unit's card;
  - the ESMS notes panel.
- **`Outline`** (outline.dfy) describes any document built as a title block, then headings each followed by a body, then a footer. It proves where every heading and body lands in the document.
- **`Markdown`** (markdown.dfy) is `generateMarkdown`. It gives the export's bodies to `Outline` and proves the layout of each section:
  - one table row per record;
  - one bullet per item;
  - the stored closing balance;
  - no compliance notes.
- **`SummaryService`** (service.dfy) models how `generateExecutiveSummary` turns the API key and the model's reply into its outcome.
- **`App`** (app.dfy) models the editor state:
  - the initial newsletter;
  - `updateEntityData` and `updateKPI`;
  - the cash and list inputs, and any run of edits;
  - the context string sent to the service;
  - the state transition of `handleGenerateSummary`.

Number-to-string conversion is not modelled digit by digit. A `Numerals` value bundles three arbitrary rendering functions:

- `toFixed(0)`;
- `toFixed(1)`;
- the `${x}` template rendering.

Every property holds for any choice of them. Properties that count lines additionally assume the renderings contain no line break (`Preview.LineFree`).

Three behaviours of the code are easy to misread, and the model follows the code in each:

- **Key Metrics cell.** The export's Key Metrics cell tests `production` for *truthiness* (components/NewsletterPreview.tsx:41), while the on-screen card tests *presence* (line 167). So a farm reporting production 0 is printed in the export with the sales text and `undefined` figures (`Preview.ZeroProductionFarm`), while its card still shows the production block (`Preview.MetricBlocks`).
- **Failed generation.** On a failed model call or an empty reply, the service *returns* a fallback text (services/geminiService.ts:23, 26), and the console stores it as the summary (App.tsx:82; `App.GenerateOutcomes`). Only a missing API key leaves the summary as it was: then the service throws, and the console catches the error and only logs it.
- **Record updates.** Records are addressed by their index in `data` (App.tsx:61-71), not by entity id, and the model does the same.

## Model

| member | source | states |
|---|---|---|
| Constants.FindIndex | components/NewsletterPreview.tsx:21 | `ENTITIES.find` by id: a found index holds the id and no earlier entry does; not found means no entry has the id |
| Constants.FindOwnId | constants.ts:4-10 | the roster's ids are distinct, so looking up entry `i`'s id finds entry `i` |
| Constants.RosterNamesOneLine | constants.ts:4-10 | no roster name contains a line break |
| Preview.EntityName | components/NewsletterPreview.tsx:21 | an id no roster entry has is shown as itself; otherwise it is shown as the name of the first entry with that id, or as the id itself when that name is empty |
| Preview.RosterNames | components/NewsletterPreview.tsx:21 | every roster entry's id is shown as that entry's name |
| Preview.CalculateVariance | components/NewsletterPreview.tsx:23-26 | a zero (falsy) target gives the literal "0.0" without dividing; any other target gives the percentage deviation from target at one decimal |
| Preview.VarianceExample | components/NewsletterPreview.tsx:23-26 | revenue 45000 against a target of 50000 prints the rendering of -10 |
| Preview.StatusLabel | components/NewsletterPreview.tsx:45 | the status cell is the stored status string upper-cased, so it is one of GREEN, AMBER, RED |
| Preview.KeyMetricsBranch | components/NewsletterPreview.tsx:41-43 | the cell starts with the production text exactly when production is present and nonzero, and with the sales text exactly otherwise; each branch's full text is the figures of its own kind |
| Preview.ZeroProductionFarm | components/NewsletterPreview.tsx:41-43 | a farm-shaped record with production 0 prints the sales text with both figures `undefined` |
| Preview.RevenueTrend | components/NewsletterPreview.tsx:160-161 | the arrow points up exactly when revenue is at or above its target |
| Preview.TrendMatchesVariance | components/NewsletterPreview.tsx:160-162 | for a positive target, the arrow points up exactly when the variance is non-negative; for a negative target the relation is mirrored; for a zero target the variance is 0 whatever the arrow shows |
| Preview.MortalityAlert | components/NewsletterPreview.tsx:175 | mortality is highlighted exactly when it is present and above 2.5 |
| Preview.MetricBlocks | components/NewsletterPreview.tsx:167-193 | a production block appears exactly when production is present, and a sales block exactly when sales volume is present; production comes first, with at most one of each; the production block shows the record's production, its target and mortality, with the alert of `Preview.MortalityAlert`, and the sales block shows the record's sales volume, its target and fulfillment rate |
| Preview.OneBlockPerShape | components/NewsletterPreview.tsx:167-193 | a farm-shaped or distribution-shaped record shows exactly one block, of its own kind |
| Preview.CardAndExportAgree | components/NewsletterPreview.tsx:167-193 | the card's production block appears exactly when production is present; card and export disagree on the kind of metrics exactly when production is 0 |
| Preview.EsmsNotes | components/NewsletterPreview.tsx:257-268 | the panel shows min(2, social) + min(1, environmental) notes: the first social notes in order, then the first environmental note |
| Types.Set | App.tsx:69 | after `{ ...kpis, [f]: v }`, field `f` reads `v` and every other field reads as before |
| Outline.StartsWithPreamble | components/NewsletterPreview.tsx:29-30 | a document built by appending opens with its title block |
| Outline.EndsWithFooter | components/NewsletterPreview.tsx:70 | the document ends with its footer |
| Outline.SectionsInOrder | components/NewsletterPreview.tsx:28-73 | every heading occurs at its position at the start of a line, and each heading ends before the next begins |
| Outline.Between | components/NewsletterPreview.tsx:28-73 | a heading, its body and the next heading occur contiguously, so the body is exactly the text between two consecutive headings |
| Outline.NextHeading | components/NewsletterPreview.tsx:28-73 | each heading after the first starts exactly where the previous heading and its body end |
| Outline.LastSection | components/NewsletterPreview.tsx:67-70 | the last heading, its body and the footer occur contiguously and end the document |
| Markdown.RowLines | components/NewsletterPreview.tsx:38-46 | one table line per record, in stored order, each made of that record's eight cells |
| Markdown.BulletItems | components/NewsletterPreview.tsx:60 | one `- x` item per list element, in order |
| Markdown.RenderFits | components/NewsletterPreview.tsx:29-70 | every heading of the export starts a line |
| Markdown.StartsWithTitle | components/NewsletterPreview.tsx:29-30 | the export opens with the title, and the week line follows it; the overview heading starts exactly where that title block ends |
| Markdown.EndsWithFooter | components/NewsletterPreview.tsx:70 | the export ends with the confidentiality footer |
| Markdown.SectionsInOrder | components/NewsletterPreview.tsx:29-70 | all ten headings appear, each at the start of a line, in the fixed order Overview, Snapshot, Financials, Receivables, Priorities & Support, Priorities, Support, ESMS, Social, Environmental |
| Markdown.Between | components/NewsletterPreview.tsx:29-70 | what lies between two consecutive headings of the export is exactly that section's body |
| Markdown.NextHeading | components/NewsletterPreview.tsx:29-70 | each heading after the first starts exactly where the previous heading and its body end, so each body is all the text between its heading and the next |
| Markdown.OverviewSection | components/NewsletterPreview.tsx:32 | the stored summary appears verbatim between the overview heading and the next heading |
| Markdown.OperationsSection | components/NewsletterPreview.tsx:34-46 | the operations table, and nothing else, lies between its heading and the financials heading |
| Markdown.FinancialsSection | components/NewsletterPreview.tsx:48-52 | the four cash lines lie between the financials heading and the receivables heading |
| Markdown.ReceivablesSection | components/NewsletterPreview.tsx:54-56 | the two aging lines lie between the receivables heading and the next heading |
| Markdown.PrioritiesAndSupportHeading | components/NewsletterPreview.tsx:58-59 | the "Priorities & Support" heading is followed directly, after a blank line, by the priorities heading |
| Markdown.PrioritiesSection | components/NewsletterPreview.tsx:59-61 | the priority bullets, and nothing else, lie between the priorities heading and the support heading |
| Markdown.SupportSection | components/NewsletterPreview.tsx:61-62 | the support bullets, and nothing else, lie between the support heading and the ESMS heading |
| Markdown.SocialSection | components/NewsletterPreview.tsx:65-66 | every social note, not just the two the screen shows, lies between the social heading and the environmental heading |
| Markdown.EnvironmentalSection | components/NewsletterPreview.tsx:67-70 | every environmental note follows its heading, then the footer closes the document |
| Markdown.TableOneRowPerRecord | components/NewsletterPreview.tsx:35-46 | splitting the table at line breaks gives the header line, the alignment line, one row per record in stored order and a final empty piece: three more lines than records |
| Markdown.BulletPerItem | components/NewsletterPreview.tsx:60 | a list of single-line items renders exactly one bullet line per item, in order |
| Markdown.ClosingLineStored | components/NewsletterPreview.tsx:52 | the closing line shows the stored closing figure, and changing opening, inflow or outflow does not change it |
| Markdown.CashOnePerLine | components/NewsletterPreview.tsx:49-52 | the cash block splits into exactly the opening, inflow, outflow and closing lines |
| Markdown.ReceivablesOnePerLine | components/NewsletterPreview.tsx:55-56 | the receivables block splits into exactly the 30-60 day and 60+ day lines |
| Markdown.EmptyPriorities | components/NewsletterPreview.tsx:59-61 | with no priorities, the subsection is its heading, a blank line and the next heading |
| Markdown.ComplianceNotEmitted | components/NewsletterPreview.tsx:28-73 | changing the compliance notes never changes the export |
| SummaryService.GenerateExecutiveSummary | services/geminiService.ts:5-28 | the service throws, with the missing-key message, exactly when the key is missing; otherwise it resolves to a nonempty summary, which is the reply's text when it has any and one of the two fallback texts otherwise |
| SummaryService.FallbacksDistinguishFailures | services/geminiService.ts:23-26 | with a key, the failed-call text results exactly from a failed call or a reply of that very text, and likewise for the empty-reply text |
| App.InitialKpis | App.tsx:21-31 | a farm starts with exactly the production, production-target, mortality and FCR figures, below its revenue target; a distribution business starts with exactly the sales, sales-target and fulfillment figures, above its target; neither has a customer count |
| App.InitialState | App.tsx:13-59 | the console starts with one green record per roster entry, in roster order, with that entry's id and its type's KPIs |
| App.ApplyPatch | App.tsx:63 | each field of the record takes the update's value when the update names it, and keeps its value otherwise |
| App.UpdateEntityData | App.tsx:61-65 | only record `idx` changes, and it becomes the merge; the list keeps its length and every other newsletter field is unchanged |
| App.UpdateKpi | App.tsx:67-71 | only `kpis[field]` of record `idx` changes: sibling KPIs, the record's other fields, other records and the rest of the newsletter are unchanged |
| App.RevenueKeepsPresence | App.tsx:159-163 | editing revenue or its target leaves the set of present optional KPIs unchanged |
| App.EditCashflow | App.tsx:210-220 | a cash input replaces exactly its own figure among opening, inflow and outflow, and changes nothing else |
| App.CashEditKeepsClosing | App.tsx:210-220 | no cash input changes the closing balance, the receivables, or the export's closing line |
| App.EditPriorities | App.tsx:228-229 | the stored list, joined back, is exactly the typed text, and it has one more item than the text has line breaks, so it is never empty |
| App.EditSupport | App.tsx:234-235 | the same, for the support list |
| App.EditedListsOneBulletPerItem | App.tsx:228-235 | whatever text is typed into the priorities or support box, the export prints exactly one bullet line per stored item |
| App.ListTextRoundTrip | App.tsx:228-235 | re-entering the text a list shows leaves the list unchanged exactly when the list is nonempty and no item contains a line break |
| App.EditKeepsInvariants | App.tsx:159-235 | each editor input keeps the records aligned with the roster and their KPI shape, and touches neither the week, the summary, the closing balance, the receivables nor the ESMS notes |
| App.EditorKeepsInvariants | App.tsx:159-235 | the same holds for any run of editor inputs |
| App.ContextName | App.tsx:76-77 | `${e?.name}`: the word "undefined" when no roster entry has the id, otherwise the exact name of the first entry with that id |
| App.RosterContextNames | App.tsx:76-77 | a roster entry's record is named by that entry, on a single line |
| App.ContextLines | App.tsx:75-77 | one context segment per record, in stored order |
| App.ContextOneLinePerRecord | App.tsx:75-78 | splitting the context at line breaks gives back exactly one segment per record, in stored order, when the text holds no line break; with no records the context is empty |
| App.SettleSummary | App.tsx:80-88 | a resolved summary is stored verbatim, nothing else in the newsletter changes, and the preview is shown; a thrown error leaves the newsletter and the tab alone; generation is no longer in flight either way |
| App.GenerateOutcomes | App.tsx:73-88 | without a key only the in-flight flag changes; with a key the summary is always replaced, by the reply's text or a fallback text, and the preview is shown |
| App.SummaryReachesExport | App.tsx:80-83 | a generated reply appears verbatim under the overview heading of the export |

## Left out

- JSX markup, styling, icons, the sidebar and the tab buttons are presentational. `DashboardCard` is also presentational and uses `Math.random`.
- The browser calls are I/O: `navigator.clipboard`, `setTimeout`, `window.print`, and the copy-status state of the preview.
- The prompt text and the network call to the model are a foreign client. The model's reply is a parameter (`SummaryService.Reply`). A failure while constructing the client is not modelled: it happens outside the service's `try`, and the console would then behave as for a missing key.
- Number formatting is not modelled. `toFixed`, the division by 1000 and template rendering of numbers are the abstract `Numerals`. Real arithmetic is exact, so floating-point rounding of the variance is not modelled.
- Markdown.TableOneRowPerRecord, Markdown.BulletPerItem, Markdown.CashOnePerLine, Markdown.ReceivablesOnePerLine and App.ContextOneLinePerRecord are proved only when no number rendering and no stored text contains a line break. A line break typed into a win or a challenge does produce extra lines. A line break typed into the priorities or support box instead starts a new item (App.EditedListsOneBulletPerItem).
- The revenue-alignment and net-cash dashboard values (App.tsx:143-144) are display-only figures; the alignment ratio has no zero guard.
- The unary-plus coercion of input text (`+e.target.value`) is not modelled: every cash and KPI edit takes a `real`. These are `type="number"` inputs (App.tsx:159, 163, 210, 215, 219): the browser reports empty or unparsable text as `""`, which `+` turns into 0, a value every real-valued edit already includes. Only the coercion step itself is not modelled.
- The status select's `as any` cast is not modelled: a status is always one of the three values.
- App.UpdateEntityData requires `idx` to index an existing record. The editor only passes indices of the rendered records; an out-of-range index in the source would spread `undefined` into a new entry at that index (App.tsx:63).
- App.UpdateKpi requires `idx < |n.data|`. That is exactly the range where the source does not throw: for any other index App.tsx:69 reads `kpis` of `undefined` and raises a TypeError.
- App.ApplyPatch: an update that names a field with the value `undefined` would overwrite it in the source. The model treats an absent field and an `undefined` one alike.
- App.SettleSummary and App.GenerateSummary model only the state once the request settles, atomically. Overlapping requests are not modelled; the generate button is disabled while one is in flight (App.tsx:135). The stale closure is not modelled either: the source writes back `{ ...newsletter, executiveSummary }` built from the newsletter captured when the button was pressed (App.tsx:82). That drops status, win, challenge, cash and list edits made while the request was in flight. Revenue and KPI edits made meanwhile survive, because `updateKPI` assigns `kpis` on the record object itself, which the captured `data` still holds; a KPI edit is dropped only when `updateEntityData` had replaced that record first.
- `updateKPI` assigns `kpis` on the shared record object (App.tsx:69) rather than on a copy, so it also mutates the record held by the previous newsletter value. The new newsletter value equals the functional update modelled by App.UpdateKpi; the mutation of the old value is not modelled.
- The rest of the preview (financial panel, priorities panel, status badge colours) is outside the modelled branches. It only displays stored values.
