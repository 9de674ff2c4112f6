/** The webhook handler of app/main.py: it checks the envelope, decodes the
    embedded `resultObject` list, and walks its records in order, upserting
    companies and posts, appending engagement metrics, and isolating every
    per-record failure. */
module Ingestion {
  import opened PyValue
  import opened Engagement
  import opened Rows
  import opened Supabase

  /** What happens outside the model while one record is processed: the
      clock reading, whether each store call raises, and whether the posts
      upsert hands back the rows it wrote. */
  datatype World = World(
    now: Timestamp,
    companyRaises: bool,
    postRaises: bool,
    postReturnsRows: bool,
    metricsRaises: bool)

  datatype Status = Success | Error | Fail | Unhandled

  /** The message of a response, as a tag. */
  datatype Reason =
    | DatabaseUnavailable
    | NoJsonData
    | NoResultObject
    | InvalidJson
    | NotAList
    | InternalServerError
    | Processed
    | CompanyProfileSaved

  /** An HTTP response: code, JSON `status`, message and `processed_count`. */
  datatype Response = Response(code: int, status: Status, reason: Reason, processedCount: Option<nat>)

  /** The result of the envelope checks: an early response, or the records. */
  datatype Envelope = Reject(response: Response) | Accept(items: seq<Value>)

  function ErrorResponse(code: int, reason: Reason): Response
  {
    Response(code, Error, reason, None)
  }

  /** The checks before the loop, in the handler's order. A TypeError raised on
      the way (indexing a list body, `json.loads` of a non-string, `len` of a
      decoded scalar) reaches the handler's outer `except` and becomes 500. */
  function OpenEnvelope(storeAvailable: bool, body: Value, loads: string -> Option<Value>): (e: Envelope)
    ensures !storeAvailable ==> e == Reject(ErrorResponse(500, DatabaseUnavailable))
    ensures storeAvailable && !Truthy(body) ==> e == Reject(ErrorResponse(400, NoJsonData))
    ensures storeAvailable && body.Obj? && body.fields != map[] && "resultObject" !in body.fields ==>
              e == Reject(ErrorResponse(400, NoResultObject))
    ensures storeAvailable && body.Obj? && "resultObject" in body.fields && body.fields["resultObject"].Str? ==>
              var decoded := loads(body.fields["resultObject"].s);
              && (decoded.None? ==> e == Reject(ErrorResponse(400, InvalidJson)))
              && (decoded.Some? && (decoded.value.Str? || decoded.value.Obj?) ==> e == Reject(ErrorResponse(400, NotAList)))
              && (decoded.Some? && !HasLen(decoded.value) ==> e == Reject(ErrorResponse(500, InternalServerError)))
              && (decoded.Some? && decoded.value.Arr? ==> e == Accept(decoded.value.items))
    // the records are accepted only from a dict body whose resultObject is a string decoding to a list
    ensures e.Accept? <==>
              && storeAvailable && body.Obj? && "resultObject" in body.fields
              && body.fields["resultObject"].Str?
              && loads(body.fields["resultObject"].s).Some?
              && loads(body.fields["resultObject"].s).value.Arr?
    // among truthy bodies, the 400 "no resultObject" is given exactly to a container without that key
    ensures storeAvailable && Truthy(body) ==>
              (e == Reject(ErrorResponse(400, NoResultObject)) <==> Contains(body, "resultObject") == Some(false))
    // any other truthy body that is not a dict with a string resultObject raises a TypeError: 500
    ensures storeAvailable && Truthy(body) && Contains(body, "resultObject") != Some(false) &&
            !(body.Obj? && "resultObject" in body.fields && body.fields["resultObject"].Str?) ==>
              e == Reject(ErrorResponse(500, InternalServerError))
    ensures e.Reject? ==> e.response.status == Error && e.response.processedCount.None?
    ensures e.Reject? ==> e.response.code == 400 || e.response.code == 500
    ensures e.Reject? && e.response.code == 500 ==>
              e.response.reason == DatabaseUnavailable || e.response.reason == InternalServerError
  {
    if !storeAvailable then Reject(ErrorResponse(500, DatabaseUnavailable))
    else if !Truthy(body) then Reject(ErrorResponse(400, NoJsonData))
    else match Contains(body, "resultObject")
      case None => Reject(ErrorResponse(500, InternalServerError))
      case Some(false) => Reject(ErrorResponse(400, NoResultObject))
      case Some(true) =>
        match Subscript(body, "resultObject")
        case Some(Str(text)) =>
          (match loads(text)
           case None => Reject(ErrorResponse(400, InvalidJson))
           case Some(decoded) =>
             if !HasLen(decoded) then Reject(ErrorResponse(500, InternalServerError))
             else if !decoded.Arr? then Reject(ErrorResponse(400, NotAList))
             else Accept(decoded.items))
        case _ => Reject(ErrorResponse(500, InternalServerError))
  }

  /** Every falsy decoded body (`null`, `{}`, `""`, `[]`, `false`, `0`) is
      rejected as no data, before any other check. */
  lemma EmptyBodyRejected(loads: string -> Option<Value>)
    ensures OpenEnvelope(true, Null, loads) == Reject(ErrorResponse(400, NoJsonData))
    ensures OpenEnvelope(true, Obj(map[]), loads) == Reject(ErrorResponse(400, NoJsonData))
    ensures OpenEnvelope(true, Str(""), loads) == Reject(ErrorResponse(400, NoJsonData))
    ensures OpenEnvelope(true, Arr([]), loads) == Reject(ErrorResponse(400, NoJsonData))
    ensures OpenEnvelope(true, Bool(false), loads) == Reject(ErrorResponse(400, NoJsonData))
    ensures OpenEnvelope(true, Int(0), loads) == Reject(ErrorResponse(400, NoJsonData))
  {
  }

  /** A `resultObject` that decodes to a JSON scalar (null, a boolean, a
      number) makes `len` raise before the list check, so the handler answers
      500 rather than the 400 it gives for a string or an object. */
  lemma ScalarResultIsServerError(body: Value, text: string, loads: string -> Option<Value>, v: Value)
    requires body.Obj? && "resultObject" in body.fields && body.fields["resultObject"] == Str(text)
    requires loads(text) == Some(v) && (v.Null? || v.Bool? || v.Int?)
    ensures OpenEnvelope(true, body, loads) == Reject(ErrorResponse(500, InternalServerError))
  {
  }

  datatype Kind = CompanyRecord | PostRecord | UnknownRecord | Unreadable

  /** Which branch of the loop a record takes. A record that is not a dict
      either raises (TypeError on `in` or on indexing) or falls through as
      unknown. */
  function Classify(item: Value): (k: Kind)
    // company wins over post, whatever else the record holds
    ensures item.Obj? ==> (k == CompanyRecord <==> "companyName" in item.fields)
    ensures item.Obj? ==> (k == PostRecord <==> "companyName" !in item.fields && "postId" in item.fields)
    ensures item.Obj? ==> (k == UnknownRecord <==> "companyName" !in item.fields && "postId" !in item.fields)
    ensures !item.Obj? ==> k == UnknownRecord || k == Unreadable
  {
    match Contains(item, "companyName")
    case None => Unreadable
    case Some(true) => if item.Obj? then CompanyRecord else Unreadable
    case Some(false) =>
      match Contains(item, "postId")
      case Some(true) => if item.Obj? then PostRecord else Unreadable
      case Some(false) => UnknownRecord
      case None => Unreadable
  }

  datatype RecordError = TypeErrorOnItem | CompanyWriteFailed | PostWriteFailed | RateFailed | MetricsWriteFailed

  /** What became of one record. */
  datatype Outcome =
    | CompanySaved
    | PostSaved(postId: nat)
    | NoRowsReturned
    | UnknownType
    | Failed(error: RecordError)
  {
    /** Whether the record adds one to `processed_items`. */
    predicate Counted()
    {
      CompanySaved? || PostSaved?
    }
  }

  /** Whether a record is counted, decided by the record and the world alone. */
  predicate Succeeds(item: Value, w: World)
  {
    match Classify(item)
    case CompanyRecord => !w.companyRaises
    case PostRecord =>
      !w.postRaises && w.postReturnsRows && EngagementRate(item.fields).Ok? && !w.metricsRaises
    case _ => false
  }

  /** The company row a record leaves in company_profile, if any. */
  function CompanyWrite(item: Value, w: World): map<Value, CompanyRow>
  {
    if Classify(item) == CompanyRecord && !w.companyRaises then
      var row := CompanyRowOf(item.fields, w.now);
      map[row.name := row]
    else
      map[]
  }

  /** The post row a record leaves in posts, if any. */
  function PostWrite(item: Value, w: World): map<Value, PostRow>
  {
    if Classify(item) == PostRecord && !w.postRaises then
      var row := PostRowOf(item.fields);
      map[row.linkedinPostId := row]
    else
      map[]
  }

  /** The metrics row a record appends, if any, given the posts' identities. */
  function MetricsWrite(item: Value, w: World, ids: map<Value, nat>): seq<MetricsRow>
  {
    if Classify(item) == PostRecord && Succeeds(item, w) then
      var key := item.fields["postId"];
      [MetricsRowOf(item.fields, if key in ids then ids[key] else 0, w.now).value]
    else
      []
  }

  /** One pass of the loop body, with its `except: continue`: a company is
      upserted; a post is upserted and then, only when the store returned the
      stored row, its metrics snapshot is appended; anything else is skipped. */
  function Process(t: Tables, item: Value, w: World): (r: (Tables, Outcome))
    ensures r.1.Counted() <==> Succeeds(item, w)
  {
    match Classify(item)
    case CompanyRecord =>
      if w.companyRaises then (t, Failed(CompanyWriteFailed))
      else (PutCompany(t, CompanyRowOf(item.fields, w.now)), CompanySaved)
    case PostRecord =>
      if w.postRaises then (t, Failed(PostWriteFailed))
      else
        var (t1, id) := PutPost(t, PostRowOf(item.fields));
        if !w.postReturnsRows then (t1, NoRowsReturned)
        else
          (match MetricsRowOf(item.fields, id, w.now)
           case Err(_) => (t1, Failed(RateFailed))
           case Ok(row) =>
             if w.metricsRaises then (t1, Failed(MetricsWriteFailed))
             else (AppendMetrics(t1, row), PostSaved(id)))
    case UnknownRecord => (t, UnknownType)
    case Unreadable => (t, Failed(TypeErrorOnItem))
  }

  /** A record with a `companyName` is saved as a company even when it also
      has a `postId`: no post row and no metrics row come of it. */
  lemma CompanyWinsOverPost(t: Tables, item: Value, w: World)
    requires item.Obj? && "companyName" in item.fields
    ensures var r := Process(t, item, w);
      && r.0.posts == t.posts && r.0.postIds == t.postIds && r.0.metrics == t.metrics
      && r.0.companies == (if w.companyRaises then t.companies
                           else t.companies[item.fields["companyName"] := CompanyRowOf(item.fields, w.now)])
      && (r.1.Counted() <==> !w.companyRaises)
  {
  }

  /** A record with neither key is skipped: nothing is written and it is not
      counted. A record that is not a dict is skipped too. */
  lemma UnknownRecordSkipped(t: Tables, item: Value, w: World)
    requires !item.Obj? || ("companyName" !in item.fields && "postId" !in item.fields)
    ensures Process(t, item, w).0 == t && !Process(t, item, w).1.Counted()
  {
  }

  /** The metrics snapshot depends on the posts upsert handing back the stored
      row: when it hands back nothing, the post is stored, no metrics row is
      appended and the record is not counted. */
  lemma MetricsNeedReturnedRows(t: Tables, item: Value, w: World)
    requires Classify(item) == PostRecord && !w.postRaises && !w.postReturnsRows
    ensures var r := Process(t, item, w);
      && r.0 == PutPost(t, PostRowOf(item.fields)).0
      && r.0.metrics == t.metrics
      && r.1 == NoRowsReturned
  {
  }

  /** One record overrides at most one company row, chosen by the record and
      the world alone. */
  lemma ProcessCompanies(t: Tables, item: Value, w: World)
    ensures Process(t, item, w).0.companies == t.companies + CompanyWrite(item, w)
  {
    if Classify(item) == CompanyRecord && !w.companyRaises {
      var row := CompanyRowOf(item.fields, w.now);
      assert Process(t, item, w).0 == PutCompany(t, row);
      UpdateAsUnion(t.companies, row.name, row);
    }
  }

  /** One record overrides at most one post row, chosen by the record and the
      world alone. */
  lemma ProcessPosts(t: Tables, item: Value, w: World)
    ensures Process(t, item, w).0.posts == t.posts + PostWrite(item, w)
  {
    if Classify(item) == PostRecord && !w.postRaises {
      var row := PostRowOf(item.fields);
      assert Process(t, item, w).0.posts == PutPost(t, row).0.posts;
      UpdateAsUnion(t.posts, row.linkedinPostId, row);
    }
  }

  /** One record keeps every post identity already given, gives one to the
      post key it writes if that key is new, and reports the identity of the
      post it saved. */
  lemma ProcessIdentities(t: Tables, item: Value, w: World)
    ensures var r := Process(t, item, w).0;
      && r.postIds.Keys == t.postIds.Keys + PostWrite(item, w).Keys
      && (forall k :: k in t.postIds ==> k in r.postIds && r.postIds[k] == t.postIds[k])
      && (PostWrite(item, w).Keys <= t.postIds.Keys ==> r.postIds == t.postIds && r.nextId == t.nextId)
    ensures var r := Process(t, item, w);
      r.1.PostSaved? ==> Classify(item) == PostRecord && r.0.postIds[item.fields["postId"]] == r.1.postId
  {
    if Classify(item) == PostRecord && !w.postRaises {
      var (t1, id) := PutPost(t, PostRowOf(item.fields));
      assert Process(t, item, w).0.postIds == t1.postIds;
    }
  }

  /** One record appends at most one metrics row, which refers to the post
      the same record upserted. */
  lemma ProcessMetrics(t: Tables, item: Value, w: World)
    ensures var r := Process(t, item, w).0;
      r.metrics == t.metrics + MetricsWrite(item, w, r.postIds)
  {
    if Classify(item) == PostRecord && !w.postRaises {
      var (t1, id) := PutPost(t, PostRowOf(item.fields));
      assert Process(t, item, w).0.postIds == t1.postIds;
    }
  }

  /** The loop over the whole list: the tables after it and `processed_items`. */
  function IngestAll(t: Tables, items: seq<Value>, ws: seq<World>): (r: (Tables, nat))
    requires |ws| == |items|
    ensures r.1 <= |items|
    decreases |items|
  {
    if items == [] then (t, 0)
    else
      var n := |items| - 1;
      var before := IngestAll(t, items[..n], ws[..n]);
      var step := Process(before.0, items[n], ws[n]);
      (step.0, before.1 + if step.1.Counted() then 1 else 0)
  }

  /** One record keeps the schema's invariants: in particular a metrics row
      is appended only after its post was stored and refers to it. */
  lemma ProcessWellFormed(t: Tables, item: Value, w: World)
    requires WellFormed(t)
    ensures WellFormed(Process(t, item, w).0)
  {
    match Classify(item)
    case CompanyRecord =>
      PutCompanyWellFormed(t, CompanyRowOf(item.fields, w.now));
    case PostRecord =>
      if !w.postRaises {
        var (t1, id) := PutPost(t, PostRowOf(item.fields));
        PutPostWellFormed(t, PostRowOf(item.fields));
        var row := MetricsRowOf(item.fields, id, w.now);
        if row.Ok? {
          AppendMetricsWellFormed(t1, row.value);
        }
      }
    case _ =>
  }

  /** A whole batch keeps the schema's invariants. */
  lemma {:induction false} IngestWellFormed(t: Tables, items: seq<Value>, ws: seq<World>)
    requires WellFormed(t) && |ws| == |items|
    ensures WellFormed(IngestAll(t, items, ws).0)
    decreases |items|
  {
    if items != [] {
      var n := |items| - 1;
      IngestWellFormed(t, items[..n], ws[..n]);
      ProcessWellFormed(IngestAll(t, items[..n], ws[..n]).0, items[n], ws[n]);
    }
  }

  function WorldsFor(worlds: nat -> World, n: nat): (ws: seq<World>)
    ensures |ws| == n && forall i :: 0 <= i < n ==> ws[i] == worlds(i)
  {
    seq(n, i requires 0 <= i => worlds(i))
  }

  function CountSucceeding(items: seq<Value>, ws: seq<World>): nat
    requires |ws| == |items|
    decreases |items|
  {
    if items == [] then 0
    else
      var n := |items| - 1;
      CountSucceeding(items[..n], ws[..n]) + if Succeeds(items[n], ws[n]) then 1 else 0
  }

  function CompanyWrites(items: seq<Value>, ws: seq<World>): map<Value, CompanyRow>
    requires |ws| == |items|
    decreases |items|
  {
    if items == [] then map[]
    else
      var n := |items| - 1;
      CompanyWrites(items[..n], ws[..n]) + CompanyWrite(items[n], ws[n])
  }

  function PostWrites(items: seq<Value>, ws: seq<World>): map<Value, PostRow>
    requires |ws| == |items|
    decreases |items|
  {
    if items == [] then map[]
    else
      var n := |items| - 1;
      PostWrites(items[..n], ws[..n]) + PostWrite(items[n], ws[n])
  }

  function MetricsWrites(items: seq<Value>, ws: seq<World>, ids: map<Value, nat>): seq<MetricsRow>
    requires |ws| == |items|
    decreases |items|
  {
    if items == [] then []
    else
      var n := |items| - 1;
      MetricsWrites(items[..n], ws[..n], ids) + MetricsWrite(items[n], ws[n], ids)
  }

  /** `processed_count` is the number of records that were saved, which does
      not depend on what the tables held before. */
  lemma {:induction false} IngestCount(t: Tables, items: seq<Value>, ws: seq<World>)
    requires |ws| == |items|
    ensures IngestAll(t, items, ws).1 == CountSucceeding(items, ws)
    decreases |items|
  {
    if items != [] {
      var n := |items| - 1;
      IngestCount(t, items[..n], ws[..n]);
    }
  }

  /** The metrics rows a batch appends depend on the posts' identities only
      through the identities of the posts the batch itself wrote. */
  lemma {:induction false} MetricsWritesStable(items: seq<Value>, ws: seq<World>, ids: map<Value, nat>, ids': map<Value, nat>)
    requires |ws| == |items|
    requires PostWrites(items, ws).Keys <= ids.Keys
    requires forall k :: k in ids ==> k in ids' && ids'[k] == ids[k]
    ensures MetricsWrites(items, ws, ids) == MetricsWrites(items, ws, ids')
    decreases |items|
  {
    if items != [] {
      var n := |items| - 1;
      assert PostWrites(items[..n], ws[..n]).Keys <= PostWrites(items, ws).Keys;
      MetricsWritesStable(items[..n], ws[..n], ids, ids');
      if Classify(items[n]) == PostRecord && Succeeds(items[n], ws[n]) {
        assert items[n].fields["postId"] in PostWrite(items[n], ws[n]).Keys;
      }
    }
  }

  /** After a batch, company_profile and posts hold the last row written
      under each key: arrival order decides, earlier rows of other keys stay. */
  lemma {:induction false} IngestRows(t: Tables, items: seq<Value>, ws: seq<World>)
    requires |ws| == |items|
    ensures IngestAll(t, items, ws).0.companies == t.companies + CompanyWrites(items, ws)
    ensures IngestAll(t, items, ws).0.posts == t.posts + PostWrites(items, ws)
    decreases |items|
  {
    if items != [] {
      var n := |items| - 1;
      IngestRows(t, items[..n], ws[..n]);
      ProcessCompanies(IngestAll(t, items[..n], ws[..n]).0, items[n], ws[n]);
      ProcessPosts(IngestAll(t, items[..n], ws[..n]).0, items[n], ws[n]);
      UnionAssociates(t.companies, CompanyWrites(items[..n], ws[..n]), CompanyWrite(items[n], ws[n]));
      UnionAssociates(t.posts, PostWrites(items[..n], ws[..n]), PostWrite(items[n], ws[n]));
    }
  }

  /** A batch gives an identity to each post key it writes and to no other. */
  lemma {:induction false} IngestIdentityKeys(t: Tables, items: seq<Value>, ws: seq<World>)
    requires |ws| == |items|
    ensures IngestAll(t, items, ws).0.postIds.Keys == t.postIds.Keys + PostWrites(items, ws).Keys
    decreases |items|
  {
    if items != [] {
      var n := |items| - 1;
      var pre, pws := items[..n], ws[..n];
      IngestIdentityKeys(t, pre, pws);
      var t1 := IngestAll(t, pre, pws).0;
      ProcessIdentities(t1, items[n], ws[n]);
      assert IngestAll(t, items, ws).0 == Process(t1, items[n], ws[n]).0;
      assert PostWrites(items, ws).Keys == PostWrites(pre, pws).Keys + PostWrite(items[n], ws[n]).Keys;
    }
  }

  /** A batch keeps every post identity already given, and gives none at all
      when it writes no new post key. */
  lemma {:induction false} IngestIdentities(t: Tables, items: seq<Value>, ws: seq<World>)
    requires |ws| == |items|
    ensures var r := IngestAll(t, items, ws).0;
      && (forall k :: k in t.postIds ==> k in r.postIds && r.postIds[k] == t.postIds[k])
      && (PostWrites(items, ws).Keys <= t.postIds.Keys ==> r.postIds == t.postIds && r.nextId == t.nextId)
    decreases |items|
  {
    if items != [] {
      var n := |items| - 1;
      var pre, pws := items[..n], ws[..n];
      IngestIdentities(t, pre, pws);
      IngestIdentityKeys(t, pre, pws);
      var t1 := IngestAll(t, pre, pws).0;
      var t2 := Process(t1, items[n], ws[n]).0;
      ProcessIdentities(t1, items[n], ws[n]);
      assert IngestAll(t, items, ws).0 == t2;
      assert PostWrites(items, ws).Keys == PostWrites(pre, pws).Keys + PostWrite(items[n], ws[n]).Keys;
      assert forall k :: k in t.postIds ==> k in t2.postIds && t2.postIds[k] == t.postIds[k];
    }
  }

  /** engagement_metrics gains exactly the batch's snapshots, in arrival
      order, each referring to its post's final identity. */
  lemma {:induction false} IngestMetrics(t: Tables, items: seq<Value>, ws: seq<World>)
    requires |ws| == |items|
    ensures var r := IngestAll(t, items, ws).0;
      r.metrics == t.metrics + MetricsWrites(items, ws, r.postIds)
    decreases |items|
  {
    if items != [] {
      var n := |items| - 1;
      var pre, pws := items[..n], ws[..n];
      IngestMetrics(t, pre, pws);
      IngestIdentityKeys(t, pre, pws);
      var t1 := IngestAll(t, pre, pws).0;
      var t2 := Process(t1, items[n], ws[n]).0;
      ProcessIdentities(t1, items[n], ws[n]);
      ProcessMetrics(t1, items[n], ws[n]);
      MetricsWritesStable(pre, pws, t1.postIds, t2.postIds);
    }
  }

  /** Ingesting the same batch again with the same clock readings and the same
      store failures rewrites the same company and post rows, changes no
      identity, and appends the same metrics snapshots a second time: metrics
      are a time series, never upserted. */
  lemma Reingest(t: Tables, items: seq<Value>, ws: seq<World>)
    requires |ws| == |items|
    ensures var first := IngestAll(t, items, ws);
      var second := IngestAll(first.0, items, ws);
      && second.1 == first.1
      && first.0.metrics == t.metrics + MetricsWrites(items, ws, first.0.postIds)
      && second.0 == first.0.(metrics := first.0.metrics + MetricsWrites(items, ws, first.0.postIds))
  {
    var first := IngestAll(t, items, ws);
    var second := IngestAll(first.0, items, ws);
    var t1, t2 := first.0, second.0;
    IngestCount(t, items, ws);
    IngestCount(t1, items, ws);
    IngestRows(t, items, ws);
    IngestRows(t1, items, ws);
    var cw, pw := CompanyWrites(items, ws), PostWrites(items, ws);
    UnionIdempotent(t.companies, cw);
    UnionIdempotent(t.posts, pw);
    assert t2.companies == t1.companies && t2.posts == t1.posts;
    IngestIdentityKeys(t, items, ws);
    IngestIdentities(t1, items, ws);
    assert t2.postIds == t1.postIds && t2.nextId == t1.nextId;
    IngestMetrics(t, items, ws);
    IngestMetrics(t1, items, ws);
    var mw := MetricsWrites(items, ws, t1.postIds);
    assert t1.metrics == t.metrics + mw;
    assert t2.metrics == t1.metrics + mw;
  }

  /** The batch is processed as its parts in sequence: whatever becomes of
      the records before a point, the records after it are processed from the
      tables those left. */
  lemma {:induction false} IngestConcat(t: Tables, a: seq<Value>, wa: seq<World>, b: seq<Value>, wb: seq<World>)
    requires |wa| == |a| && |wb| == |b|
    ensures var left := IngestAll(t, a, wa);
      var right := IngestAll(left.0, b, wb);
      IngestAll(t, a + b, wa + wb) == (right.0, left.1 + right.1)
    decreases |b|
  {
    if b == [] {
      assert a + b == a && wa + wb == wa;
    } else {
      var n := |b| - 1;
      var b', wb', x, w := b[..n], wb[..n], b[n], wb[n];
      SplitLast(a, b);
      SplitLast(wa, wb);
      IngestConcat(t, a, wa, b', wb');
      IngestSnoc(t, a + b', wa + wb', x, w);
      IngestSnoc(IngestAll(t, a, wa).0, b', wb', x, w);
    }
  }

  /** Splitting the last element off a concatenation. */
  lemma SplitLast<T>(a: seq<T>, b: seq<T>)
    requires b != []
    ensures b == b[..|b| - 1] + [b[|b| - 1]]
    ensures a + b == (a + b[..|b| - 1]) + [b[|b| - 1]]
  {
  }

  /** Ingesting one more record is one more pass of the loop body. */
  lemma IngestSnoc(t: Tables, items: seq<Value>, ws: seq<World>, x: Value, w: World)
    requires |ws| == |items|
    ensures var before := IngestAll(t, items, ws);
      var step := Process(before.0, x, w);
      IngestAll(t, items + [x], ws + [w]) == (step.0, before.1 + if step.1.Counted() then 1 else 0)
  {
    assert (items + [x])[..|items|] == items && (ws + [w])[..|ws|] == ws;
  }

  /** The loop's view of IngestAll: the first i + 1 records are the first i
      followed by one more pass of the body. */
  lemma IngestPrefixStep(t: Tables, items: seq<Value>, ws: seq<World>, i: nat)
    requires |ws| == |items| && i < |items|
    ensures var before := IngestAll(t, items[..i], ws[..i]);
      var step := Process(before.0, items[i], ws[i]);
      IngestAll(t, items[..i + 1], ws[..i + 1]) == (step.0, before.1 + if step.1.Counted() then 1 else 0)
  {
    assert items[..i + 1][..i] == items[..i] && ws[..i + 1][..i] == ws[..i];
  }

  /** One record that fails (a raising write, a non-numeric count, an unusable
      item) costs that record alone: when every other record of the batch
      succeeds, `processed_count` is one less than the batch size. */
  lemma {:induction false} FailureIsolated(t: Tables, items: seq<Value>, ws: seq<World>, bad: nat)
    requires |ws| == |items| && bad < |items|
    requires !Succeeds(items[bad], ws[bad])
    requires forall j :: 0 <= j < |items| && j != bad ==> Succeeds(items[j], ws[j])
    ensures IngestAll(t, items, ws).1 == |items| - 1
  {
    IngestCount(t, items, ws);
    CountAllButOne(items, ws, bad);
  }

  lemma {:induction false} CountAllButOne(items: seq<Value>, ws: seq<World>, bad: nat)
    requires |ws| == |items| && bad < |items|
    requires !Succeeds(items[bad], ws[bad])
    requires forall j :: 0 <= j < |items| && j != bad ==> Succeeds(items[j], ws[j])
    ensures CountSucceeding(items, ws) == |items| - 1
    decreases |items|
  {
    var n := |items| - 1;
    if bad < n {
      CountAllButOne(items[..n], ws[..n], bad);
    } else {
      CountAll(items[..n], ws[..n]);
    }
  }

  lemma {:induction false} CountAll(items: seq<Value>, ws: seq<World>)
    requires |ws| == |items|
    requires forall j :: 0 <= j < |items| ==> Succeeds(items[j], ws[j])
    ensures CountSucceeding(items, ws) == |items|
    decreases |items|
  {
    if items != [] {
      var n := |items| - 1;
      CountAll(items[..n], ws[..n]);
    }
  }

  /** One record, as the loop body does it: every exception is caught, so the
      store calls either change the tables or leave them as they were. */
  method ProcessItem(store: Store, item: Value, w: World) returns (counted: bool)
    requires store.Valid()
    modifies store
    ensures store.Valid()
    ensures store.State() == Process(old(store.State()), item, w).0
    ensures counted == Process(old(store.State()), item, w).1.Counted()
  {
    var kind := Classify(item);
    if kind == CompanyRecord {
      counted := store.UpsertCompany(CompanyRowOf(item.fields, w.now), w.companyRaises);
    } else if kind == PostRecord {
      var reply := store.UpsertPost(PostRowOf(item.fields), w.postRaises, w.postReturnsRows);
      if reply.Raised? || |reply.ids| == 0 {
        return false;
      }
      var postId := reply.ids[0];
      var row := MetricsRowOf(item.fields, postId, w.now);
      if row.Err? {
        return false;
      }
      counted := store.InsertMetrics(row.value, w.metricsRaises);
    } else {
      counted := false;
    }
  }

  /** The `for i, item in enumerate(result_data)` loop and its
      `processed_items` counter. */
  method IngestRecords(store: Store, items: seq<Value>, worlds: nat -> World) returns (processed: nat)
    requires store.Valid()
    modifies store
    ensures store.Valid()
    ensures var r := IngestAll(old(store.State()), items, WorldsFor(worlds, |items|));
      store.State() == r.0 && processed == r.1
  {
    ghost var t := store.State();
    ghost var ws := WorldsFor(worlds, |items|);
    processed := 0;
    var i := 0;
    while i < |items|
      invariant 0 <= i <= |items|
      invariant store.Valid()
      invariant store.State() == IngestAll(t, items[..i], ws[..i]).0
      invariant processed == IngestAll(t, items[..i], ws[..i]).1
    {
      IngestPrefixStep(t, items, ws, i);
      var counted := ProcessItem(store, items[i], worlds(i));
      if counted {
        processed := processed + 1;
      }
      i := i + 1;
    }
    assert items[..i] == items && ws[..i] == ws;
  }

  /** The POST /webhook handler. `store` is null when the Supabase client could
      not be created at start-up; `loads` stands for `json.loads`; `worlds(i)`
      is what the outside world does while record i is processed. */
  method Webhook(store: Store?, body: Value, loads: string -> Option<Value>, worlds: nat -> World)
    returns (resp: Response)
    requires store != null ==> store.Valid()
    modifies store
    ensures store != null ==> store.Valid()
    ensures OpenEnvelope(store != null, body, loads).Reject? ==>
              && resp == OpenEnvelope(store != null, body, loads).response
              && (store != null ==> store.State() == old(store.State()))
    ensures OpenEnvelope(store != null, body, loads).Accept? ==>
              && store != null
              && var items := OpenEnvelope(store != null, body, loads).items;
                 var r := IngestAll(old(store.State()), items, WorldsFor(worlds, |items|));
                 store.State() == r.0 && resp == Response(200, Success, Processed, Some(r.1))
  {
    var envelope := OpenEnvelope(store != null, body, loads);
    if envelope.Reject? {
      return envelope.response;
    }
    var processed := IngestRecords(store, envelope.items, worlds);
    resp := Response(200, Success, Processed, Some(processed));
  }
}
