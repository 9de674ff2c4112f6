/** The earlier webhook handler of app/webhook_server.py. It reads every
    record of `resultObject` as a company and reads seven of its fields with
    `company[key]`, so a missing field raises. Nothing is caught: the first
    error ends the request with Flask's own 500 page, and the rows written
    before it stay written. It never touches posts or engagement_metrics. */
module LegacyWebhook {
  import opened PyValue
  import opened Rows
  import opened Supabase
  import opened Ingestion

  /** The seven fields the legacy row reads with `company[key]`. */
  predicate HasCompanyFields(m: map<string, Value>)
  {
    && "companyName" in m && "companyUrl" in m && "followerCount" in m
    && "website" in m && "description" in m && "industry" in m
    && "companySize" in m
  }

  /** The company_profile row the legacy handler builds, or None when building
      it raises: the record is not a dict, or one of the seven fields is
      missing. `location` alone is read with `get` and defaults to null. */
  function StrictCompanyRow(item: Value, now: Timestamp): (r: Option<CompanyRow>)
    ensures r.Some? <==> item.Obj? && HasCompanyFields(item.fields)
    ensures r.Some? ==> r.value.name == item.fields["companyName"]
    ensures r.Some? ==> CopiedOrDefault(item.fields, "location", Null, r.value.location)
    ensures r.Some? ==> r.value.specialties == [] && r.value.fetchedAt == now
  {
    if item.Obj? && HasCompanyFields(item.fields) then
      var m := item.fields;
      Some(CompanyRow(
        name := m["companyName"],
        linkedinUrl := m["companyUrl"],
        followers := m["followerCount"],
        website := m["website"],
        description := m["description"],
        industry := m["industry"],
        companySize := m["companySize"],
        specialties := [],
        location := Get(m, "location", Null),
        fetchedAt := now))
    else
      None
  }

  /** On a record holding all seven fields and a location, the legacy row is
      the row the current handler builds; without a location the two differ
      only there: null against the current handler's empty string. */
  lemma StrictRowAgreesWithCurrent(item: Value, now: Timestamp)
    requires item.Obj? && HasCompanyFields(item.fields)
    ensures "location" in item.fields ==> StrictCompanyRow(item, now) == Some(CompanyRowOf(item.fields, now))
    ensures "location" !in item.fields ==>
              StrictCompanyRow(item, now) == Some(CompanyRowOf(item.fields, now).(location := Null))
  {
  }

  /** How the loop over the records ended: it ran to the end, or the record at
      index `at` raised, leaving the tables as the records before it left
      them. */
  datatype Run = Completed(t: Tables) | Aborted(t: Tables, at: nat)

  /** The `for company in result_data` loop on a list of records. */
  function SaveAll(t: Tables, items: seq<Value>, ws: seq<World>): (r: Run)
    requires |ws| == |items|
    // only company_profile is written
    ensures r.t.posts == t.posts && r.t.postIds == t.postIds
    ensures r.t.metrics == t.metrics && r.t.nextId == t.nextId
    ensures r.Aborted? ==> r.at < |items|
    decreases |items|
  {
    if items == [] then Completed(t)
    else
      var n := |items| - 1;
      match SaveAll(t, items[..n], ws[..n])
      case Aborted(t', at) => Aborted(t', at)
      case Completed(t') =>
        match StrictCompanyRow(items[n], ws[n].now)
        case None => Aborted(t', n)
        case Some(row) =>
          if ws[n].companyRaises then Aborted(t', n) else Completed(PutCompany(t', row))
  }

  /** Whether record j can be saved: its row builds and its upsert does not raise. */
  predicate Saves(item: Value, w: World)
  {
    StrictCompanyRow(item, w.now).Some? && !w.companyRaises
  }

  /** The loop runs to the end exactly when every record is saved. */
  lemma {:induction false} CompletesIffAllSave(t: Tables, items: seq<Value>, ws: seq<World>)
    requires |ws| == |items|
    ensures SaveAll(t, items, ws).Completed? <==> forall j :: 0 <= j < |items| ==> Saves(items[j], ws[j])
    decreases |items|
  {
    if items != [] {
      var n := |items| - 1;
      var pre, pws := items[..n], ws[..n];
      CompletesIffAllSave(t, pre, pws);
      SaveAllStep(t, items, ws);
      AllSaveStep(items, ws);
    }
  }

  /** The last record decides a run whose other records all completed. */
  lemma SaveAllStep(t: Tables, items: seq<Value>, ws: seq<World>)
    requires |ws| == |items| && items != []
    ensures var n := |items| - 1;
      SaveAll(t, items, ws).Completed? <==>
        SaveAll(t, items[..n], ws[..n]).Completed? && Saves(items[n], ws[n])
  {
  }

  /** Every record of a list saves iff every record before the last does and
      the last does. */
  lemma AllSaveStep(items: seq<Value>, ws: seq<World>)
    requires |ws| == |items| && items != []
    ensures var n := |items| - 1;
      (forall j :: 0 <= j < |items| ==> Saves(items[j], ws[j])) <==>
        (forall j :: 0 <= j < n ==> Saves(items[..n][j], ws[..n][j])) && Saves(items[n], ws[n])
  {
    var n := |items| - 1;
    assert forall j :: 0 <= j < n ==> items[..n][j] == items[j] && ws[..n][j] == ws[j];
  }

  /** An aborted loop stopped at the first record that could not be saved,
      and the tables are what the records before it made of them. */
  lemma {:induction false} AbortKeepsPrefix(t: Tables, items: seq<Value>, ws: seq<World>)
    requires |ws| == |items|
    requires SaveAll(t, items, ws).Aborted?
    ensures var r := SaveAll(t, items, ws);
      && !Saves(items[r.at], ws[r.at])
      && SaveAll(t, items[..r.at], ws[..r.at]) == Completed(r.t)
    decreases |items|
  {
    var n := |items| - 1;
    assert items[..n][..n] == items[..n] && ws[..n][..n] == ws[..n];
    if SaveAll(t, items[..n], ws[..n]).Aborted? {
      AbortKeepsPrefix(t, items[..n], ws[..n]);
      var at := SaveAll(t, items[..n], ws[..n]).at;
      assert items[..n][..at] == items[..at] && ws[..n][..at] == ws[..at];
      assert items[..n][at] == items[at] && ws[..n][at] == ws[at];
    }
  }

  /** Once the records up to some point have aborted, the rest of the list
      changes nothing: the loop was left there. */
  lemma {:induction false} AbortIsFinal(t: Tables, items: seq<Value>, ws: seq<World>, i: nat)
    requires |ws| == |items| && i <= |items|
    requires SaveAll(t, items[..i], ws[..i]).Aborted?
    ensures SaveAll(t, items, ws) == SaveAll(t, items[..i], ws[..i])
    decreases |items| - i
  {
    if i < |items| {
      assert items[..i + 1][..i] == items[..i] && ws[..i + 1][..i] == ws[..i];
      AbortIsFinal(t, items, ws, i + 1);
    } else {
      assert items[..i] == items && ws[..i] == ws;
    }
  }

  /** A record with the seven fields and a location, whose upsert does not raise. */
  predicate FullCompany(item: Value, w: World)
  {
    item.Obj? && HasCompanyFields(item.fields) && "location" in item.fields && !w.companyRaises
  }

  lemma FullCompanyPrefix(items: seq<Value>, ws: seq<World>, n: nat)
    requires |ws| == |items| && n <= |items|
    requires forall j :: 0 <= j < |items| ==> FullCompany(items[j], ws[j])
    ensures forall j :: 0 <= j < n ==> FullCompany(items[..n][j], ws[..n][j])
  {
    assert forall j :: 0 <= j < n ==> items[..n][j] == items[j] && ws[..n][j] == ws[j];
  }

  /** On records that all hold the seven fields and a location, with no upsert
      raising, the legacy loop leaves the tables exactly as the current
      handler's loop does. */
  lemma {:induction false} AgreesWithCurrent(t: Tables, items: seq<Value>, ws: seq<World>)
    requires |ws| == |items|
    requires forall j :: 0 <= j < |items| ==> FullCompany(items[j], ws[j])
    ensures SaveAll(t, items, ws) == Completed(IngestAll(t, items, ws).0)
    decreases |items|
  {
    if items != [] {
      var n := |items| - 1;
      FullCompanyPrefix(items, ws, n);
      AgreesWithCurrent(t, items[..n], ws[..n]);
      StrictRowAgreesWithCurrent(items[n], ws[n].now);
      SaveAllLast(t, items, ws);
      var t1 := IngestAll(t, items[..n], ws[..n]).0;
      CurrentSavesCompany(t1, items[n], ws[n]);
    }
  }

  /** A run whose other records completed and whose last record saves
      completes with that record's row upserted. */
  lemma SaveAllLast(t: Tables, items: seq<Value>, ws: seq<World>)
    requires |ws| == |items| && items != []
    requires SaveAll(t, items[..|items| - 1], ws[..|items| - 1]).Completed?
    requires Saves(items[|items| - 1], ws[|items| - 1])
    ensures var n := |items| - 1;
      SaveAll(t, items, ws) ==
        Completed(PutCompany(SaveAll(t, items[..n], ws[..n]).t, StrictCompanyRow(items[n], ws[n].now).value))
  {
  }

  /** The current handler's loop body on a company record whose upsert does
      not raise is exactly that upsert. */
  lemma CurrentSavesCompany(t: Tables, item: Value, w: World)
    requires item.Obj? && "companyName" in item.fields && !w.companyRaises
    ensures Process(t, item, w) == (PutCompany(t, CompanyRowOf(item.fields, w.now)), CompanySaved)
  {
  }

  /** The company rows a list of records writes, in list order: a later row
      overrides an earlier one under the same name. */
  function StrictWrites(items: seq<Value>, ws: seq<World>): map<Value, CompanyRow>
    requires |ws| == |items|
    decreases |items|
  {
    if items == [] then map[]
    else
      var n := |items| - 1;
      var row := StrictCompanyRow(items[n], ws[n].now);
      StrictWrites(items[..n], ws[..n]) + if row.Some? then map[row.value.name := row.value] else map[]
  }

  /** A loop that ran to the end upserted every record once, in list order;
      one that aborted did so for the records before the failing one. */
  lemma {:induction false} CompletedWritesInOrder(t: Tables, items: seq<Value>, ws: seq<World>)
    requires |ws| == |items|
    requires SaveAll(t, items, ws).Completed?
    ensures SaveAll(t, items, ws).t.companies == t.companies + StrictWrites(items, ws)
    decreases |items|
  {
    if items != [] {
      var n := |items| - 1;
      CompletedWritesInOrder(t, items[..n], ws[..n]);
      var row := StrictCompanyRow(items[n], ws[n].now).value;
      var before := SaveAll(t, items[..n], ws[..n]).t;
      UpdateAsUnion(before.companies, row.name, row);
      UnionAssociates(t.companies, StrictWrites(items[..n], ws[..n]), map[row.name := row]);
    }
  }

  /** On the same records the current handler counts every one of them, so
      the two handlers' 200 answers agree. */
  lemma CurrentCountsEveryCompany(t: Tables, items: seq<Value>, ws: seq<World>)
    requires |ws| == |items|
    requires forall j :: 0 <= j < |items| ==>
      items[j].Obj? && HasCompanyFields(items[j].fields) && !ws[j].companyRaises
    ensures SaveAll(t, items, ws).Completed?
    ensures IngestAll(t, items, ws).1 == |items|
  {
    CompletesIffAllSave(t, items, ws);
    IngestCount(t, items, ws);
    CountAll(items, ws);
  }

  /** The loop's view of SaveAll: one more record after a completed prefix. */
  lemma SavePrefixStep(t: Tables, items: seq<Value>, ws: seq<World>, i: nat, t': Tables)
    requires |ws| == |items| && i < |items|
    requires SaveAll(t, items[..i], ws[..i]) == Completed(t')
    ensures !Saves(items[i], ws[i]) ==> SaveAll(t, items[..i + 1], ws[..i + 1]) == Aborted(t', i)
    ensures Saves(items[i], ws[i]) ==>
              SaveAll(t, items[..i + 1], ws[..i + 1]) ==
              Completed(PutCompany(t', StrictCompanyRow(items[i], ws[i].now).value))
  {
    assert items[..i + 1][..i] == items[..i] && ws[..i + 1][..i] == ws[..i];
  }

  /** Flask's answer to an exception nothing caught. */
  const Crash := Response(500, Unhandled, InternalServerError, None)

  const Saved := Response(200, Success, CompanyProfileSaved, None)

  /** What the handler makes of the body before its loop: an answer given
      without touching the tables, or the list of records to save. */
  datatype Request = Answer(response: Response) | Records(items: seq<Value>)

  /** The checks before the loop. A decoded dict or string is iterated too; an
      empty one saves nothing and succeeds, and the first key or character of
      a non-empty one is indexed by a string and raises. */
  function OpenRequest(body: Value, loads: string -> Option<Value>): (q: Request)
    // the records are reached only from a dict whose resultObject is a string decoding to a list
    ensures q.Records? <==>
              && body.Obj? && "resultObject" in body.fields
              && body.fields["resultObject"].Str?
              && loads(body.fields["resultObject"].s).Some?
              && loads(body.fields["resultObject"].s).value.Arr?
    ensures q.Answer? ==>
              q.response == Saved || q.response == Crash || q.response == Response(400, Fail, NoResultObject, None)
    ensures (q.Answer? && q.response.code == 400) <==> Contains(body, "resultObject") == Some(false)
    // every other body that is not a dict with a string resultObject raises: 500
    ensures Contains(body, "resultObject") != Some(false) &&
            !(body.Obj? && "resultObject" in body.fields && body.fields["resultObject"].Str?) ==>
              q == Answer(Crash)
    // invalid JSON, or a decoded value without a length, raises: 500
    ensures body.Obj? && "resultObject" in body.fields && body.fields["resultObject"].Str? ==>
              var decoded := loads(body.fields["resultObject"].s);
              decoded.None? || !HasLen(decoded.value) ==> q == Answer(Crash)
    // the records are the elements of the decoded list
    ensures q.Records? ==> q.items == loads(body.fields["resultObject"].s).value.items
    // a decoded string or dict is iterated: empty, nothing is saved and the answer is 200;
    // non-empty, its first element is indexed by a string and raises
    ensures body.Obj? && "resultObject" in body.fields && body.fields["resultObject"].Str? ==>
              var decoded := loads(body.fields["resultObject"].s);
              && (decoded.Some? && decoded.value.Str? ==> q == Answer(if decoded.value.s == "" then Saved else Crash))
              && (decoded.Some? && decoded.value.Obj? ==> q == Answer(if decoded.value.fields == map[] then Saved else Crash))
  {
    match Contains(body, "resultObject")
    case None => Answer(Crash)
    case Some(false) => Answer(Response(400, Fail, NoResultObject, None))
    case Some(true) =>
      match Subscript(body, "resultObject")
      case Some(Str(text)) =>
        (match loads(text)
         case Some(Arr(xs)) => Records(xs)
         case Some(Str(s)) => Answer(if s == "" then Saved else Crash)
         case Some(Obj(m)) => Answer(if m == map[] then Saved else Crash)
         case _ => Answer(Crash))
      case _ => Answer(Crash)
  }

  /** The whole request: the tables after it and the response. */
  function Handle(t: Tables, body: Value, loads: string -> Option<Value>, worlds: nat -> World): (r: (Tables, Response))
    ensures r.1 == Saved || r.1 == Crash || r.1 == Response(400, Fail, NoResultObject, None)
    // a 400 exactly when the body is a container without `resultObject`, and then nothing is written
    ensures r.1.code == 400 <==> Contains(body, "resultObject") == Some(false)
    ensures r.1.code == 400 ==> r.0 == t
    ensures r.0.posts == t.posts && r.0.postIds == t.postIds
    ensures r.0.metrics == t.metrics && r.0.nextId == t.nextId
    // on a list, every element is saved in turn: 200 when the loop completes, 500 when it aborts
    ensures body.Obj? && "resultObject" in body.fields && body.fields["resultObject"].Str? &&
            loads(body.fields["resultObject"].s).Some? && loads(body.fields["resultObject"].s).value.Arr? ==>
              var xs := loads(body.fields["resultObject"].s).value.items;
              var run := SaveAll(t, xs, WorldsFor(worlds, |xs|));
              r == (run.t, if run.Completed? then Saved else Crash)
    // any other body writes nothing
    ensures OpenRequest(body, loads).Answer? ==> r == (t, OpenRequest(body, loads).response)
  {
    match OpenRequest(body, loads)
    case Answer(resp) => (t, resp)
    case Records(xs) =>
      match SaveAll(t, xs, WorldsFor(worlds, |xs|))
      case Completed(t') => (t', Saved)
      case Aborted(t', _) => (t', Crash)
  }

  /** A list of records is answered 200 exactly when every record is saved. */
  lemma ListSavedIffAllSave(t: Tables, body: Value, text: string, loads: string -> Option<Value>, worlds: nat -> World, xs: seq<Value>)
    requires body.Obj? && "resultObject" in body.fields && body.fields["resultObject"] == Str(text)
    requires loads(text) == Some(Arr(xs))
    ensures var r := Handle(t, body, loads, worlds);
      r.1 == Saved <==> forall j :: 0 <= j < |xs| ==> Saves(xs[j], worlds(j))
  {
    var ws := WorldsFor(worlds, |xs|);
    CompletesIffAllSave(t, xs, ws);
  }

  /** The POST /webhook handler of app/webhook_server.py. */
  method Webhook(store: Store, body: Value, loads: string -> Option<Value>, worlds: nat -> World)
    returns (resp: Response)
    requires store.Valid()
    modifies store
    ensures store.Valid()
    ensures (store.State(), resp) == Handle(old(store.State()), body, loads, worlds)
  {
    var request := OpenRequest(body, loads);
    if request.Answer? {
      return request.response;
    }
    resp := SaveRecords(store, request.items, worlds);
  }

  /** The loop over a list of records, left at the first exception. */
  method SaveRecords(store: Store, items: seq<Value>, worlds: nat -> World) returns (resp: Response)
    requires store.Valid()
    modifies store
    ensures store.Valid()
    ensures var r := SaveAll(old(store.State()), items, WorldsFor(worlds, |items|));
      store.State() == r.t && resp == (if r.Completed? then Saved else Crash)
  {
    ghost var t := store.State();
    ghost var ws := WorldsFor(worlds, |items|);
    var i := 0;
    while i < |items|
      invariant 0 <= i <= |items|
      invariant store.Valid()
      invariant SaveAll(t, items[..i], ws[..i]) == Completed(store.State())
    {
      SavePrefixStep(t, items, ws, i, store.State());
      var row := StrictCompanyRow(items[i], worlds(i).now);
      if row.None? {
        AbortIsFinal(t, items, ws, i + 1);
        return Crash;
      }
      var ok := store.UpsertCompany(row.value, worlds(i).companyRaises);
      if !ok {
        AbortIsFinal(t, items, ws, i + 1);
        return Crash;
      }
      i := i + 1;
    }
    assert items[..i] == items && ws[..i] == ws;
    resp := Saved;
  }
}
