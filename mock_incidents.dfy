/**
 * The seed list of src/data/mockIncidents.ts, the list the dashboard starts
 * from. Each timestamp is the instant of the record's ISO string in
 * milliseconds since the epoch.
 */
module MockData {
  import opened Wrappers
  import opened IncidentTypes

  /** A seed record: every optional field is absent. */
  function Seed(id: int, title: string, description: string, severity: Severity, reportedAt: int): Incident {
    Incident(id, title, description, severity, reportedAt, None, None, None, None, None, None)
  }

  const MockIncidents: seq<Incident> := [
    Seed(1, "Biased Recommendation Algorithm",
         "Algorithm consistently favored certain demographics in job recommendations, potentially leading to discriminatory hiring practices. This issue was discovered during a routine audit of the recommendation system's output patterns.",
         Medium, 1742032800000),  // 2025-03-15T10:00:00Z
    Seed(2, "LLM Hallucination in Critical Info",
         "Language model provided incorrect safety procedure information in an industrial setting, potentially risking worker safety. The model generated convincing but entirely incorrect emergency protocols.",
         High, 1743517800000),    // 2025-04-01T14:30:00Z
    Seed(3, "Minor Data Leak via Chatbot",
         "Chatbot inadvertently exposed non-sensitive user metadata in responses. While no critical information was compromised, this indicates a potential vulnerability in the data handling system.",
         Low, 1742462100000),     // 2025-03-20T09:15:00Z
    Seed(4, "Autonomous System Override Failure",
         "Critical safety override failed to activate during autonomous system test, requiring manual intervention. Investigation revealed potential gaps in failsafe mechanisms.",
         High, 1744303500000),    // 2025-04-10T16:45:00Z
    Seed(5, "AI Model Performance Degradation",
         "Gradual decline in model accuracy observed over time, affecting user experience but not critical functions. Regular monitoring caught the issue before significant impact.",
         Low, 1742901600000)      // 2025-03-25T11:20:00Z
  ]

  /** The ids of a list, in order. */
  function Ids(s: seq<Incident>): seq<int> {
    seq(|s|, i requires 0 <= i < |s| => s[i].id)
  }

  lemma SeedShape()
    ensures Ids(MockIncidents) == [1, 2, 3, 4, 5]
    ensures forall i, j :: 0 <= i < j < |MockIncidents| ==> MockIncidents[i].id != MockIncidents[j].id
    ensures MockIncidents[0].severity == Medium && MockIncidents[1].severity == High
    ensures MockIncidents[2].severity == Low && MockIncidents[3].severity == High
    ensures MockIncidents[4].severity == Low
    ensures forall x :: x in MockIncidents ==> x.category == None && x.status == None
    ensures |MockIncidents| == 5
    ensures MockIncidents[0].reportedAt < MockIncidents[2].reportedAt < MockIncidents[4].reportedAt
              < MockIncidents[1].reportedAt < MockIncidents[3].reportedAt
  {
  }
}
