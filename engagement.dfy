/** The two engagement-rate calculations: the guarded one used by the current
    handler (app/main.py) and the earlier unguarded one (app/webhook_server.py).
    Both compute `round((total / impressions) * 100, 2)` in floating point; the
    model keeps the exact ratio `num / den` that Python then rounds. */
module Engagement {
  import opened PyValue

  /** The exact rate num / den, before Python's float division and rounding. */
  datatype Rate = Rate(num: int, den: int)

  datatype RateError = TypeError | ZeroDivisionError

  /** `likes + comments + shares + clicks`, each `post.get(k, 0)`. None when a
      term is not a number, in which case the division that follows raises a
      TypeError whatever `+` did with the terms. */
  function TotalEngagement(post: map<string, Value>): Option<int>
  {
    var likes := Numeric(Get(post, "likes", Int(0)));
    var comments := Numeric(Get(post, "comments", Int(0)));
    var shares := Numeric(Get(post, "shares", Int(0)));
    var clicks := Numeric(Get(post, "clicks", Int(0)));
    if likes.Some? && comments.Some? && shares.Some? && clicks.Some? then
      Some(likes.value + comments.value + shares.value + clicks.value)
    else
      None
  }

  /** The number of impressions the guarded rate divides by:
      `post.get('impressions', 1) or 1`. */
  function GuardedImpressions(post: map<string, Value>): Value
  {
    var impressions := Get(post, "impressions", Int(1));
    if Truthy(impressions) then impressions else Int(1)
  }

  /** calculate_engagement_rate of app/main.py. */
  function EngagementRate(post: map<string, Value>): (r: Result<Rate, RateError>)
    // it never divides by zero, so the only failure modelled is a non-numeric
    // field (the float overflow of a huge quotient is not modelled)
    ensures r.Err? ==> r.error == TypeError
    ensures r.Ok? ==> r.value.den != 0
    ensures r.Ok? <==> TotalEngagement(post).Some? && Numeric(GuardedImpressions(post)).Some?
    ensures r.Ok? ==> r.value.num == 100 * TotalEngagement(post).value
    // an absent or zero (more generally: falsy) impressions count divides by one
    ensures r.Ok? && !Truthy(Get(post, "impressions", Int(0))) ==> r.value.den == 1
    ensures r.Ok? && Truthy(Get(post, "impressions", Int(0))) ==> Numeric(post["impressions"]) == Some(r.value.den)
  {
    var total := TotalEngagement(post);
    var impressions := Numeric(GuardedImpressions(post));
    if total.Some? && impressions.Some? then
      Ok(Rate(100 * total.value, impressions.value))
    else
      Err(TypeError)
  }

  /** calculate_engagement_rate of app/webhook_server.py: the default of 1 applies
      only when `impressions` is absent, so an explicit 0 divides by zero. */
  function UnguardedEngagementRate(post: map<string, Value>): (r: Result<Rate, RateError>)
    ensures r == Err(ZeroDivisionError) <==>
              TotalEngagement(post).Some? && "impressions" in post && Numeric(post["impressions"]) == Some(0)
    ensures r.Ok? ==> r == EngagementRate(post)
    // it succeeds on numeric counts and a numeric, non-zero divisor
    ensures r.Ok? <==> TotalEngagement(post).Some? && Numeric(Get(post, "impressions", Int(1))).Some? &&
                       Numeric(Get(post, "impressions", Int(1))).value != 0
    // an absent impressions count divides by one
    ensures "impressions" !in post && TotalEngagement(post).Some? ==> r == Ok(Rate(100 * TotalEngagement(post).value, 1))
  {
    var total := TotalEngagement(post);
    var impressions := Numeric(Get(post, "impressions", Int(1)));
    if total.None? || impressions.None? then Err(TypeError)
    else if impressions.value == 0 then Err(ZeroDivisionError)
    else Ok(Rate(100 * total.value, impressions.value))
  }

  /** Where the unguarded rate is defined, both rates agree, and the guarded one
      is defined on every record the unguarded one accepts or fails on only by
      dividing by zero. */
  lemma GuardOnlyRemovesZeroDivision(post: map<string, Value>)
    ensures UnguardedEngagementRate(post).Ok? ==> EngagementRate(post) == UnguardedEngagementRate(post)
    ensures UnguardedEngagementRate(post) == Err(ZeroDivisionError) ==>
              EngagementRate(post) == Ok(Rate(100 * TotalEngagement(post).value, 1))
  {
  }

  /** The rate is not clamped: when the interactions outnumber the impressions
      it exceeds 100 percent. */
  lemma RateCanExceedHundred(post: map<string, Value>, n: int)
    requires TotalEngagement(post).Some?
    requires "impressions" in post && post["impressions"] == Int(n) && n > 0
    requires TotalEngagement(post).value > n
    ensures EngagementRate(post).Ok?
    ensures EngagementRate(post).value.num > 100 * EngagementRate(post).value.den
  {
  }

  /** The worked examples: rate(0,0,0,0,0) = 0, rate(1,1,1,1,0) = 400 and
      rate(1,1,1,1,10) = 40. */
  lemma RateExamples()
    ensures EngagementRate(map["likes" := Int(0), "comments" := Int(0), "shares" := Int(0),
                               "clicks" := Int(0), "impressions" := Int(0)]) == Ok(Rate(0, 1))
    ensures EngagementRate(map["likes" := Int(1), "comments" := Int(1), "shares" := Int(1),
                               "clicks" := Int(1), "impressions" := Int(0)]) == Ok(Rate(400, 1))
    ensures EngagementRate(map["likes" := Int(1), "comments" := Int(1), "shares" := Int(1),
                               "clicks" := Int(1), "impressions" := Int(10)]) == Ok(Rate(400, 10))
  {
  }
}
