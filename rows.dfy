/** The rows the current handler writes to the three tables, built from one
    decoded record. Every optional field is copied verbatim when present (even
    when its value is null) and takes a fixed default when absent. */
module Rows {
  import opened PyValue
  import opened Engagement

  /** An ISO-8601 reading of the clock, supplied from outside the model. */
  type Timestamp = string

  /** A row of table company_profile. */
  datatype CompanyRow = CompanyRow(
    name: Value,
    linkedinUrl: Value,
    followers: Value,
    website: Value,
    description: Value,
    industry: Value,
    companySize: Value,
    specialties: seq<Value>,
    location: Value,
    fetchedAt: Timestamp)

  /** A row of table posts; rawData keeps the record it came from. */
  datatype PostRow = PostRow(
    linkedinPostId: Value,
    content: Value,
    postType: Value,
    publishedAt: Value,
    authorId: Value,
    hashtags: Value,
    mentions: Value,
    rawData: map<string, Value>)

  /** A row of table engagement_metrics, referring to a post by its identity. */
  datatype MetricsRow = MetricsRow(
    postId: nat,
    likes: Value,
    comments: Value,
    shares: Value,
    impressions: Value,
    clicks: Value,
    engagementRate: Rate,
    measuredAt: Timestamp)

  /** `item.get(key, default)` stated as a relation: the stored value is the
      record's own when the key is there, the default otherwise. */
  predicate CopiedOrDefault(item: map<string, Value>, key: string, default: Value, stored: Value)
  {
    (key in item ==> stored == item[key]) && (key !in item ==> stored == default)
  }

  /** The company_profile row of app/main.py for a record with a companyName. */
  function CompanyRowOf(item: map<string, Value>, now: Timestamp): (row: CompanyRow)
    requires "companyName" in item
    ensures row.name == item["companyName"]
    ensures CopiedOrDefault(item, "companyUrl", Str(""), row.linkedinUrl)
    ensures CopiedOrDefault(item, "followerCount", Int(0), row.followers)
    ensures CopiedOrDefault(item, "website", Str(""), row.website)
    ensures CopiedOrDefault(item, "description", Str(""), row.description)
    ensures CopiedOrDefault(item, "industry", Str(""), row.industry)
    ensures CopiedOrDefault(item, "companySize", Str(""), row.companySize)
    ensures CopiedOrDefault(item, "location", Str(""), row.location)
    ensures row.specialties == [] && row.fetchedAt == now
  {
    CompanyRow(
      name := item["companyName"],
      linkedinUrl := Get(item, "companyUrl", Str("")),
      followers := Get(item, "followerCount", Int(0)),
      website := Get(item, "website", Str("")),
      description := Get(item, "description", Str("")),
      industry := Get(item, "industry", Str("")),
      companySize := Get(item, "companySize", Str("")),
      specialties := [],
      location := Get(item, "location", Str("")),
      fetchedAt := now)
  }

  /** The posts row of app/main.py for a record with a postId. */
  function PostRowOf(item: map<string, Value>): (row: PostRow)
    requires "postId" in item
    ensures row.linkedinPostId == item["postId"] && row.rawData == item
    ensures CopiedOrDefault(item, "content", Str(""), row.content)
    ensures CopiedOrDefault(item, "postType", Str(""), row.postType)
    ensures CopiedOrDefault(item, "publishedAt", Str(""), row.publishedAt)
    ensures CopiedOrDefault(item, "authorId", Str(""), row.authorId)
    ensures CopiedOrDefault(item, "hashtags", Arr([]), row.hashtags)
    ensures CopiedOrDefault(item, "mentions", Arr([]), row.mentions)
  {
    PostRow(
      linkedinPostId := item["postId"],
      content := Get(item, "content", Str("")),
      postType := Get(item, "postType", Str("")),
      publishedAt := Get(item, "publishedAt", Str("")),
      authorId := Get(item, "authorId", Str("")),
      hashtags := Get(item, "hashtags", Arr([])),
      mentions := Get(item, "mentions", Arr([])),
      rawData := item)
  }

  /** Hashtags and mentions are taken from the record as given, not extracted
      from its content: changing the content changes neither. */
  lemma TagsIndependentOfContent(item: map<string, Value>, content: Value)
    requires "postId" in item
    ensures PostRowOf(item["content" := content]).hashtags == PostRowOf(item).hashtags
    ensures PostRowOf(item["content" := content]).mentions == PostRowOf(item).mentions
    ensures PostRowOf(item["content" := content]).content == content
  {
  }

  /** The engagement_metrics row of app/main.py for the post with identity
      postId. Building it fails exactly when the engagement rate raises. */
  function MetricsRowOf(item: map<string, Value>, postId: nat, now: Timestamp): (r: Result<MetricsRow, RateError>)
    ensures r.Ok? <==> EngagementRate(item).Ok?
    ensures r.Ok? ==> r.value.postId == postId && r.value.measuredAt == now
    ensures r.Ok? ==> r.value.engagementRate == EngagementRate(item).value
    ensures r.Ok? ==> CopiedOrDefault(item, "likes", Int(0), r.value.likes)
    ensures r.Ok? ==> CopiedOrDefault(item, "comments", Int(0), r.value.comments)
    ensures r.Ok? ==> CopiedOrDefault(item, "shares", Int(0), r.value.shares)
    ensures r.Ok? ==> CopiedOrDefault(item, "impressions", Int(0), r.value.impressions)
    ensures r.Ok? ==> CopiedOrDefault(item, "clicks", Int(0), r.value.clicks)
  {
    match EngagementRate(item)
    case Err(e) => Err(e)
    case Ok(rate) =>
      Ok(MetricsRow(
        postId := postId,
        likes := Get(item, "likes", Int(0)),
        comments := Get(item, "comments", Int(0)),
        shares := Get(item, "shares", Int(0)),
        impressions := Get(item, "impressions", Int(0)),
        clicks := Get(item, "clicks", Int(0)),
        engagementRate := rate,
        measuredAt := now))
  }

  /** A stored metrics row holds numbers in its four interaction counts (the
      rate could not have been computed otherwise), while its impressions
      column keeps whatever the record held, null included, with default 0
      rather than the rate's default 1. */
  lemma StoredCountsAreNumeric(item: map<string, Value>, postId: nat, now: Timestamp)
    requires MetricsRowOf(item, postId, now).Ok?
    ensures var row := MetricsRowOf(item, postId, now).value;
      Numeric(row.likes).Some? && Numeric(row.comments).Some? &&
      Numeric(row.shares).Some? && Numeric(row.clicks).Some? &&
      row.engagementRate.num ==
        100 * (Numeric(row.likes).value + Numeric(row.comments).value +
               Numeric(row.shares).value + Numeric(row.clicks).value)
  {
  }
}
