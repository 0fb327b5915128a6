/** The derived display values of the newsletter preview
    (components/NewsletterPreview.tsx): entity names, revenue variance,
    the status label, the key-metrics text, and the presence, trend and
    slice branches of the on-screen cards. Nothing here is stored; it is
    recomputed from the `Newsletter` on every render. */
module Preview {
  import opened Types
  import opened Text
  import opened Constants

  /** Number-to-string rendering, left abstract: `fixed0` is
      `x.toFixed(0)`, `fixed1` is `x.toFixed(1)`, and `text` is what a
      template literal `${x}` prints. Every property below holds for any
      choice of the three. */
  datatype Numerals = Numerals(fixed0: real -> string, fixed1: real -> string, text: real -> string)

  /** The renderings never produce a line break (as `toFixed` and number
      formatting never do). */
  ghost predicate LineFree(num: Numerals)
  {
    forall x :: NL !in num.fixed0(x) && NL !in num.fixed1(x) && NL !in num.text(x)
  }

  /** `${x}` of an optional number: `undefined` prints as the word. */
  function ShowOpt(num: Numerals, o: Option<real>): string
  {
    match o
    case None => "undefined"
    case Some(v) => num.text(v)
  }

  /** JavaScript truthiness of an optional number: present and nonzero. */
  predicate Truthy(o: Option<real>)
  {
    o.Some? && o.value != 0.0
  }

  /** `getEntityName`: the roster name for `id`, falling back to `id` itself
      when no entry has it (or the entry's name is empty, which `||` also
      skips). */
  function EntityName(id: string): (name: string)
    ensures (forall i :: 0 <= i < |Entities| ==> Entities[i].id != id) ==> name == id
    ensures forall i: nat :: FirstWith(Entities, i, id) ==>
      name == (if Entities[i].name != "" then Entities[i].name else id)
  {
    match FindIndex(Entities, id)
    case Some(i) => if Entities[i].name != "" then Entities[i].name else id
    case None => id
  }

  /** Every roster entry is shown under its own name. */
  lemma RosterNames(i: nat)
    requires i < |Entities|
    ensures EntityName(Entities[i].id) == Entities[i].name
  {
    FindOwnId(i);
  }

  /** The variance as a number: the percentage deviation from target, with
      a zero target read as no deviation. */
  function VarianceValue(actual: real, target: real): real
  {
    if target == 0.0 then 0.0 else (actual - target) / target * 100.0
  }

  /** `calculateVariance`: a falsy (zero) target yields the literal "0.0";
      otherwise the deviation is printed to one decimal. No division by zero
      happens on either path. */
  function CalculateVariance(num: Numerals, actual: real, target: real): (r: string)
    ensures target == 0.0 ==> r == "0.0"
    ensures target != 0.0 ==> r == num.fixed1(VarianceValue(actual, target))
  {
    if target == 0.0 then "0.0" else num.fixed1((actual - target) / target * 100.0)
  }

  /** The worked example: 45000 against a target of 50000 is -10 %. */
  lemma VarianceExample(num: Numerals)
    ensures CalculateVariance(num, 45000.0, 50000.0) == num.fixed1(-10.0)
  {
  }

  /** `status.toUpperCase()`, as it appears in the export. */
  function StatusLabel(s: Status): (shown: string)
    ensures shown == Upper(StatusName(s))
    ensures shown in {"GREEN", "AMBER", "RED"}
  {
    match s
    case Green => "GREEN"
    case Amber => "AMBER"
    case Red => "RED"
  }

  /** `$<x/1000 to 0 decimals>K`. */
  function Thousands(num: Numerals, amount: real): string
  {
    "$" + num.fixed0(amount / 1000.0) + "K"
  }

  /** The export's Key Metrics cell. It tests `production` for truthiness,
      not presence: a present production of 0 takes the sales branch. */
  function KeyMetrics(num: Numerals, k: Kpis): string
  {
    if Truthy(k.production) then
      "Prod: " + ShowOpt(num, k.production) + "t, Mort: " + ShowOpt(num, k.mortality) + "%"
    else
      "Sales: " + ShowOpt(num, k.salesVolume) + "t, Full: " + ShowOpt(num, k.fulfillmentRate) + "%"
  }

  /** The cell is the production text exactly when production is present
      and nonzero, and the sales text otherwise. */
  lemma KeyMetricsBranch(num: Numerals, k: Kpis)
    ensures "Prod: " <= KeyMetrics(num, k) <==> (k.production.Some? && k.production.value != 0.0)
    ensures "Sales: " <= KeyMetrics(num, k) <==> !(k.production.Some? && k.production.value != 0.0)
    ensures Truthy(k.production) ==>
      KeyMetrics(num, k) == "Prod: " + num.text(k.production.value) + "t, Mort: " + ShowOpt(num, k.mortality) + "%"
    ensures !Truthy(k.production) ==>
      KeyMetrics(num, k) == "Sales: " + ShowOpt(num, k.salesVolume) + "t, Full: " + ShowOpt(num, k.fulfillmentRate) + "%"
  {
    var m := KeyMetrics(num, k);
    if Truthy(k.production) {
      assert m[..6] == "Prod: ";
      assert !("Sales: " <= m) by { assert m[0] == 'P'; }
    } else {
      assert m[..7] == "Sales: ";
      assert !("Prod: " <= m) by { assert m[0] == 'S'; }
    }
  }

  /** A farm-shaped record whose production is 0 renders the sales text,
      and every sales figure in it prints as `undefined`. */
  lemma ZeroProductionFarm(num: Numerals, k: Kpis)
    requires Presence(k) == FarmFields
    requires k.production == Some(0.0)
    ensures KeyMetrics(num, k) == "Sales: undefinedt, Full: undefined%"
  {
    assert SalesVolume !in Presence(k);
    assert FulfillmentRate !in Presence(k);
  }

  /** The revenue trend arrow of a preview card. */
  datatype Trend = Up | Down

  /** Up (and green) when revenue meets or beats its target. */
  function RevenueTrend(k: Kpis): (t: Trend)
    ensures t == Up <==> k.revenue >= k.revenueTarget
  {
    if k.revenue >= k.revenueTarget then Up else Down
  }

  /** The arrow and the printed variance agree in sign for a positive
      target, are mirrored for a negative one, and for a zero target the
      variance reads 0 while the arrow follows the sign of revenue. */
  lemma TrendMatchesVariance(k: Kpis)
    ensures k.revenueTarget > 0.0 ==>
      (RevenueTrend(k) == Up <==> VarianceValue(k.revenue, k.revenueTarget) >= 0.0)
    ensures k.revenueTarget < 0.0 ==>
      (RevenueTrend(k) == Up <==> VarianceValue(k.revenue, k.revenueTarget) <= 0.0)
    ensures k.revenueTarget == 0.0 ==>
      VarianceValue(k.revenue, k.revenueTarget) == 0.0 && (RevenueTrend(k) == Up <==> k.revenue >= 0.0)
  {
    var a, t := k.revenue, k.revenueTarget;
    if t != 0.0 {
      var q := (a - t) / t;
      assert q * t == a - t;
      if t > 0.0 {
        assert q >= 0.0 <==> a - t >= 0.0;
      } else {
        assert q <= 0.0 <==> a - t >= 0.0;
      }
    }
  }

  /** One block of figures under a preview card's revenue line. */
  datatype MetricBlock =
    | ProductionBlock(production: real, productionTarget: Option<real>, mortality: Option<real>, mortalityAlert: bool)
    | SalesBlock(salesVolume: real, salesTarget: Option<real>, fulfillmentRate: Option<real>)

  /** `(mortality || 0) > 2.5`: the mortality figure is highlighted. */
  function MortalityAlert(k: Kpis): (alert: bool)
    ensures alert <==> k.mortality.Some? && k.mortality.value > 2.5
  {
    match k.mortality
    case None => false
    case Some(m) => m > 2.5
  }

  /** The preview card's metric blocks: production figures when
      `production !== undefined`, then sales figures when
      `salesVolume !== undefined`. Unlike the export, this tests presence. */
  function MetricBlocks(k: Kpis): (blocks: seq<MetricBlock>)
    ensures |blocks| <= 2
    ensures (exists i :: 0 <= i < |blocks| && blocks[i].ProductionBlock?) <==> k.production.Some?
    ensures (exists i :: 0 <= i < |blocks| && blocks[i].SalesBlock?) <==> k.salesVolume.Some?
    ensures forall i, j :: 0 <= i < j < |blocks| ==> blocks[i].ProductionBlock? && blocks[j].SalesBlock?
    ensures forall i :: 0 <= i < |blocks| && blocks[i].ProductionBlock? ==>
      blocks[i] == ProductionBlock(k.production.value, k.productionTarget, k.mortality, MortalityAlert(k))
    ensures forall i :: 0 <= i < |blocks| && blocks[i].SalesBlock? ==>
      blocks[i] == SalesBlock(k.salesVolume.value, k.salesTarget, k.fulfillmentRate)
  {
    var production :=
      if k.production.Some? then [ProductionBlock(k.production.value, k.productionTarget, k.mortality, MortalityAlert(k))] else [];
    var sales :=
      if k.salesVolume.Some? then [SalesBlock(k.salesVolume.value, k.salesTarget, k.fulfillmentRate)] else [];
    var blocks := production + sales;
    assert k.production.Some? ==> blocks[0].ProductionBlock?;
    assert k.salesVolume.Some? ==> blocks[|blocks| - 1].SalesBlock?;
    blocks
  }

  /** A record of either shape shows exactly one block, of its own kind. */
  lemma OneBlockPerShape(k: Kpis)
    requires Presence(k) == FarmFields || Presence(k) == DistributionFields
    ensures |MetricBlocks(k)| == 1
    ensures MetricBlocks(k)[0].ProductionBlock? <==> Presence(k) == FarmFields
  {
    if Presence(k) == FarmFields {
      assert Production in Presence(k) && SalesVolume !in Presence(k);
    } else {
      assert Production !in Presence(k) && SalesVolume in Presence(k);
      assert Presence(k) != FarmFields;
    }
  }

  /** For a record of either shape the card and the export pick the same
      kind of metrics, except for a farm whose production is exactly 0: the
      card shows production figures while the export prints the sales text. */
  lemma CardAndExportAgree(num: Numerals, k: Kpis)
    requires Presence(k) == FarmFields || Presence(k) == DistributionFields
    ensures MetricBlocks(k)[0].ProductionBlock? && "Sales: " <= KeyMetrics(num, k)
      <==> k.production == Some(0.0)
    ensures MetricBlocks(k)[0].ProductionBlock? <==> k.production.Some?
  {
    OneBlockPerShape(k);
    KeyMetricsBranch(num, k);
    if Presence(k) == FarmFields {
      assert Production in Presence(k);
    } else {
      assert Production !in Presence(k);
    }
  }

  /** `slice(0, n)`: at most the first `n` elements. */
  function Take(xs: seq<string>, n: nat): seq<string>
  {
    if |xs| <= n then xs else xs[..n]
  }

  function Min(a: int, b: int): int
  {
    if a <= b then a else b
  }

  /** The ESMS panel: the first two social notes, then the first
      environmental note. Compliance notes are never shown. */
  function EsmsNotes(e: Esms): (notes: seq<string>)
    ensures |notes| == Min(2, |e.social|) + Min(1, |e.environmental|)
    ensures forall i :: 0 <= i < Min(2, |e.social|) ==> notes[i] == e.social[i]
    ensures |e.environmental| > 0 ==> notes[|notes| - 1] == e.environmental[0]
  {
    Take(e.social, 2) + Take(e.environmental, 1)
  }
}
