/**
 * The constant table from Jira platform labels to QA-portal project names
 * (`platformMapping` in data/platformMapping.ts). Lookup is plain exact-key
 * indexing of the record: case-sensitive, no fallback.
 */
module PlatformMapping {
  import opened Wrappers

  const PlatformTable: map<string, string> := map[
    "WebOS" := "LSI (ex KCTS) - WebOS",
    "FireTV" := "LSI (ex KCTS) - Fire OS",
    "iOS" := "LSI (ex KCTS) - iOS",
    "Tizen" := "LSI (ex KCTS) - Tizen",
    "Android" := "LSI (ex KCTS) - Android",
    "AndroidTV" := "LSI (ex KCTS) - Android TV",
    "AppleTV" := "LSI (ex KCTS) - tvOS"
  ]

  /** `platformMapping[platform]`: the portal project, or `None` for a label with no entry. */
  function MapPlatform(platform: string): (r: Option<string>)
    ensures r.Some? <==> platform in PlatformTable
    ensures r.Some? ==> r.value in PlatformTable.Values && PlatformTable[platform] == r.value
  {
    if platform in PlatformTable then Some(PlatformTable[platform]) else None
  }

  /** The table has exactly the seven platforms of the source, no more. */
  lemma PlatformKeys()
    ensures PlatformTable.Keys == {"WebOS", "FireTV", "iOS", "Tizen", "Android", "AndroidTV", "AppleTV"}
    ensures |PlatformTable| == 7
  {
  }

  /** No two Jira platforms share a portal project. */
  lemma PlatformInjective(a: string, b: string)
    requires MapPlatform(a).Some? && MapPlatform(b).Some?
    requires MapPlatform(a) == MapPlatform(b)
    ensures a == b
  {
  }

  /** `Unknown` has no entry (the line giving it one is commented out): it is skipped. */
  lemma UnknownPlatformUnmapped()
    ensures MapPlatform("Unknown") == None
  {
  }

  /** Only `AppleTV` reaches the tvOS project; the labels `tvOS` and `Chromecast` have no entry. */
  lemma TvosOnlyThroughAppleTv(platform: string)
    ensures MapPlatform(platform) == Some("LSI (ex KCTS) - tvOS") <==> platform == "AppleTV"
    ensures MapPlatform("tvOS") == None && MapPlatform("Chromecast") == None
  {
  }

  /** Lookup is case-sensitive: `webos` is not `WebOS`. */
  lemma PlatformLookupCaseSensitive()
    ensures MapPlatform("WebOS") == Some("LSI (ex KCTS) - WebOS")
    ensures MapPlatform("webos") == None
  {
  }
}
