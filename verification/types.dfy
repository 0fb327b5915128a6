/** The newsletter's data model (types.ts). Every TypeScript `number` is a
    `real`, except the week number and year, which are whole numbers that
    nothing edits and that are rendered as `x as real`. An optional KPI
    (`production?: number`) is an `Option<real>` whose `None` is the
    source's `undefined`. */
module Types {

  datatype Option<T> = None | Some(value: T)

  datatype EntityType = Farm | Distribution

  /** A business unit: static reference data. */
  datatype Entity = Entity(id: string, name: string, country: string, entityType: EntityType)

  /** The traffic-light status `'green' | 'amber' | 'red'`. */
  datatype Status = Green | Amber | Red

  /** The status as stored: the lower-case string literal. */
  function StatusName(s: Status): string
  {
    match s
    case Green => "green"
    case Amber => "amber"
    case Red => "red"
  }

  /** The keys of `WeeklyData['kpis']`. */
  datatype KpiField =
    | Revenue | RevenueTarget
    | Production | ProductionTarget | Fcr | Mortality
    | SalesVolume | SalesTarget | NewCustomers | FulfillmentRate

  /** The KPI keys that may be `undefined`. */
  const OptionalFields: set<KpiField> :=
    {Production, ProductionTarget, Fcr, Mortality, SalesVolume, SalesTarget, NewCustomers, FulfillmentRate}

  /** The optional KPIs a farm record carries. */
  const FarmFields: set<KpiField> := {Production, ProductionTarget, Mortality, Fcr}

  /** The optional KPIs a distribution record carries. */
  const DistributionFields: set<KpiField> := {SalesVolume, SalesTarget, FulfillmentRate}

  datatype Kpis = Kpis(
    revenue: real,
    revenueTarget: real,
    production: Option<real>,
    productionTarget: Option<real>,
    fcr: Option<real>,
    mortality: Option<real>,
    salesVolume: Option<real>,
    salesTarget: Option<real>,
    newCustomers: Option<real>,
    fulfillmentRate: Option<real>)

  /** `kpis[f]`, with `undefined` as `None`. */
  function Get(k: Kpis, f: KpiField): Option<real>
  {
    match f
    case Revenue => Some(k.revenue)
    case RevenueTarget => Some(k.revenueTarget)
    case Production => k.production
    case ProductionTarget => k.productionTarget
    case Fcr => k.fcr
    case Mortality => k.mortality
    case SalesVolume => k.salesVolume
    case SalesTarget => k.salesTarget
    case NewCustomers => k.newCustomers
    case FulfillmentRate => k.fulfillmentRate
  }

  /** `{ ...k, [f]: v }`: field `f` reads `v` afterwards, every other field
      reads as before. */
  function Set(k: Kpis, f: KpiField, v: real): (r: Kpis)
    ensures Get(r, f) == Some(v)
    ensures forall g :: g != f ==> Get(r, g) == Get(k, g)
  {
    match f
    case Revenue => k.(revenue := v)
    case RevenueTarget => k.(revenueTarget := v)
    case Production => k.(production := Some(v))
    case ProductionTarget => k.(productionTarget := Some(v))
    case Fcr => k.(fcr := Some(v))
    case Mortality => k.(mortality := Some(v))
    case SalesVolume => k.(salesVolume := Some(v))
    case SalesTarget => k.(salesTarget := Some(v))
    case NewCustomers => k.(newCustomers := Some(v))
    case FulfillmentRate => k.(fulfillmentRate := Some(v))
  }

  /** Which optional KPIs are present (not `undefined`). */
  function Presence(k: Kpis): set<KpiField>
  {
    set f | f in OptionalFields && Get(k, f).Some?
  }

  datatype Operational = Operational(win: string, challenge: string)

  /** One entity's figures and notes for the week. */
  datatype WeeklyData = WeeklyData(entityId: string, status: Status, kpis: Kpis, operational: Operational)

  /** The group's cash position; `closing` is entered, not derived. */
  datatype Cashflow = Cashflow(
    opening: real,
    cashIn: real,
    cashOut: real,
    closing: real,
    receivables30: real,
    receivables60: real)

  datatype Esms = Esms(environmental: seq<string>, social: seq<string>, compliance: seq<string>)

  /** The aggregate the editor updates and the preview renders. */
  datatype Newsletter = Newsletter(
    weekNumber: int,
    year: int,
    weekEnding: string,
    executiveSummary: string,
    data: seq<WeeklyData>,
    cashflow: Cashflow,
    priorities: seq<string>,
    supportRequired: seq<string>,
    esms: Esms)
}
