/**
 * The constant table from Jira priority names to QA-portal field names
 * (`priorityMapping` in data/priorityMapping.ts). Lookup is plain exact-key
 * indexing of the record: case-sensitive, no fallback.
 */
module PriorityMapping {
  import opened Wrappers

  const PriorityTable: map<string, string> := map[
    "Highest" := "blocker",
    "High" := "critical",
    "Medium" := "major",
    "Low" := "minor",
    "Lowest" := "trivial"
  ]

  /** `priorityMapping[name]`: the portal field, or `None` for a name with no entry. */
  function MapPriority(name: string): (r: Option<string>)
    ensures r.Some? <==> name in PriorityTable
    ensures r.Some? ==> r.value in PriorityTable.Values && PriorityTable[name] == r.value
  {
    if name in PriorityTable then Some(PriorityTable[name]) else None
  }

  /** The table has exactly the five Jira priorities. */
  lemma PriorityKeys()
    ensures PriorityTable.Keys == {"Highest", "High", "Medium", "Low", "Lowest"}
    ensures |PriorityTable| == 5
  {
  }

  /** The five Jira priorities map, in order of severity, to the five portal fields. */
  lemma PriorityValues()
    ensures MapPriority("Highest") == Some("blocker")
    ensures MapPriority("High") == Some("critical")
    ensures MapPriority("Medium") == Some("major")
    ensures MapPriority("Low") == Some("minor")
    ensures MapPriority("Lowest") == Some("trivial")
  {
  }

  /** No two Jira priorities share a portal field. */
  lemma PriorityInjective(a: string, b: string)
    requires MapPriority(a).Some? && MapPriority(b).Some?
    requires MapPriority(a) == MapPriority(b)
    ensures a == b
  {
  }

  /** The alternate spellings `major` and `minor` are commented out, and lookup is
      case-sensitive, so none of these has an entry; nor does the default `Unknown`. */
  lemma PriorityUnmappedNames()
    ensures MapPriority("major") == None && MapPriority("minor") == None
    ensures MapPriority("highest") == None
    ensures MapPriority("Unknown") == None
  {
  }
}
