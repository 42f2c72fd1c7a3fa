/**
 * The record and enumeration types of src/types/incident.ts.
 *
 * The TypeScript string unions become closed datatypes; each carries the
 * name the source spells it with and a parser that accepts exactly those
 * names. `reported_at` is an ISO-8601 string in the source; here it is the
 * instant it denotes, in milliseconds since the epoch (what `getTime()`
 * returns), because every consumer in the core compares instants.
 */
module IncidentTypes {
  import opened Wrappers

  datatype Severity = Low | Medium | High
  datatype Category = SecurityBreach | OperationalError | Injury | Other
  datatype Status = Open | Resolved | InProgress
  datatype SortOrder = Newest | Oldest

  /** An incident record; the last six fields may be absent. */
  datatype Incident = Incident(
    id: int,
    title: string,
    description: string,
    severity: Severity,
    reportedAt: int,
    category: Option<Category>,
    location: Option<string>,
    affectedSystems: Option<string>,
    impactScope: Option<string>,
    status: Option<Status>,
    resolutionTime: Option<real>)

  /** `Omit<Incident, 'id'>`: a record before the list assigns its id. */
  datatype Draft = Draft(
    title: string,
    description: string,
    severity: Severity,
    reportedAt: int,
    category: Option<Category>,
    location: Option<string>,
    affectedSystems: Option<string>,
    impactScope: Option<string>,
    status: Option<Status>,
    resolutionTime: Option<real>)

  /** The object spread `{ ...draft, id }`. */
  function WithId(d: Draft, id: int): (r: Incident)
    ensures r.id == id && DraftOf(r) == d
  {
    Incident(id, d.title, d.description, d.severity, d.reportedAt, d.category,
             d.location, d.affectedSystems, d.impactScope, d.status, d.resolutionTime)
  }

  /** Everything of a record except its id. */
  function DraftOf(r: Incident): Draft {
    Draft(r.title, r.description, r.severity, r.reportedAt, r.category,
          r.location, r.affectedSystems, r.impactScope, r.status, r.resolutionTime)
  }

  lemma DraftRoundTrip(r: Incident)
    ensures WithId(DraftOf(r), r.id) == r
  {
  }

  function SeverityName(v: Severity): string {
    match v
    case Low => "Low"
    case Medium => "Medium"
    case High => "High"
  }

  /** The type `Severity`: exactly the three strings "Low", "Medium", "High". */
  function ParseSeverity(s: string): (r: Option<Severity>)
    ensures r.Some? <==> s in {"Low", "Medium", "High"}
    ensures r.Some? ==> SeverityName(r.value) == s
  {
    if s == "Low" then Some(Low)
    else if s == "Medium" then Some(Medium)
    else if s == "High" then Some(High)
    else None
  }

  lemma SeverityNameRoundTrip(v: Severity)
    ensures ParseSeverity(SeverityName(v)) == Some(v)
  {
  }

  function SortOrderName(o: SortOrder): string {
    match o
    case Newest => "newest"
    case Oldest => "oldest"
  }

  /** The type `SortOrder`: exactly "newest" and "oldest". */
  function ParseSortOrder(s: string): (r: Option<SortOrder>)
    ensures r.Some? <==> s in {"newest", "oldest"}
    ensures r.Some? ==> SortOrderName(r.value) == s
  {
    if s == "newest" then Some(Newest)
    else if s == "oldest" then Some(Oldest)
    else None
  }

  function CategoryName(c: Category): string {
    match c
    case SecurityBreach => "Security Breach"
    case OperationalError => "Operational Error"
    case Injury => "Injury"
    case Other => "Other"
  }

  /** The union type of `category`: exactly four strings. */
  function ParseCategory(s: string): (r: Option<Category>)
    ensures r.Some? <==> s in {"Security Breach", "Operational Error", "Injury", "Other"}
    ensures r.Some? ==> CategoryName(r.value) == s
  {
    if s == "Security Breach" then Some(SecurityBreach)
    else if s == "Operational Error" then Some(OperationalError)
    else if s == "Injury" then Some(Injury)
    else if s == "Other" then Some(Other)
    else None
  }

  function StatusName(st: Status): string {
    match st
    case Open => "Open"
    case Resolved => "Resolved"
    case InProgress => "In Progress"
  }

  /** The union type of `status`: exactly three strings. */
  function ParseStatus(s: string): (r: Option<Status>)
    ensures r.Some? <==> s in {"Open", "Resolved", "In Progress"}
    ensures r.Some? ==> StatusName(r.value) == s
  {
    if s == "Open" then Some(Open)
    else if s == "Resolved" then Some(Resolved)
    else if s == "In Progress" then Some(InProgress)
    else None
  }

  /** Every enumeration value has its own name, so the parsers invert the names. */
  lemma NamesRoundTrip(o: SortOrder, c: Category, st: Status)
    ensures ParseSortOrder(SortOrderName(o)) == Some(o)
    ensures ParseCategory(CategoryName(c)) == Some(c)
    ensures ParseStatus(StatusName(st)) == Some(st)
  {
  }
}
