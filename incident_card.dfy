/** The severity badge colour of src/components/IncidentCard.tsx. */
module IncidentCard {
  import opened IncidentTypes
  import JsString

  /**
   * `getSeverityColor` (lines 13-24): a case-insensitive match of the
   * severity name. Every string gets one of four classes, and a string gets
   * a severity class exactly when it is a case variant of that severity's
   * name.
   */
  function SeverityColor(severity: string): (r: string)
    ensures r in {"bg-severity-low", "bg-severity-medium", "bg-severity-high", "bg-gray-500"}
    ensures r == "bg-severity-low" <==> JsString.CaseVariant(severity, "low")
    ensures r == "bg-severity-medium" <==> JsString.CaseVariant(severity, "medium")
    ensures r == "bg-severity-high" <==> JsString.CaseVariant(severity, "high")
    ensures r == "bg-gray-500" <==>
              !JsString.CaseVariant(severity, "low") &&
              !JsString.CaseVariant(severity, "medium") &&
              !JsString.CaseVariant(severity, "high")
  {
    JsString.ToLowerMatchesCaseVariants(severity, "low");
    JsString.ToLowerMatchesCaseVariants(severity, "medium");
    JsString.ToLowerMatchesCaseVariants(severity, "high");
    var key := JsString.ToLower(severity);
    if key == "low" then "bg-severity-low"
    else if key == "medium" then "bg-severity-medium"
    else if key == "high" then "bg-severity-high"
    else "bg-gray-500"
  }

  /** A value of type `Severity` always gets its own colour, never the gray fallback. */
  lemma SeverityNeverGray(v: Severity)
    ensures SeverityColor(SeverityName(v)) ==
              match v
              case Low => "bg-severity-low"
              case Medium => "bg-severity-medium"
              case High => "bg-severity-high"
  {
    var name := SeverityName(v);
    match v
    case Low => assert JsString.CaseVariant(name, "low");
    case Medium => assert JsString.CaseVariant(name, "medium");
    case High => assert JsString.CaseVariant(name, "high");
  }
}
