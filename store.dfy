/** The three Supabase tables the handlers write: company_profile and posts,
    upserted by their natural keys (the company name and the post id), and
    engagement_metrics, appended to. The store gives every post an identity
    the first time its key is written and keeps it across later upserts. */
module Supabase {
  import opened PyValue
  import opened Rows

  /** The contents of the three tables. */
  datatype Tables = Tables(
    companies: map<Value, CompanyRow>,
    posts: map<Value, PostRow>,
    postIds: map<Value, nat>,
    metrics: seq<MetricsRow>,
    nextId: nat)

  const Empty := Tables(map[], map[], map[], [], 0)

  /** The schema's invariants: each row sits under its own natural key, every
      post has exactly one identity, identities are distinct, and every metrics
      row refers to a stored post. */
  ghost predicate WellFormed(t: Tables)
  {
    && (forall n :: n in t.companies ==> t.companies[n].name == n)
    && (forall k :: k in t.posts ==> t.posts[k].linkedinPostId == k)
    && t.posts.Keys == t.postIds.Keys
    && (forall k :: k in t.postIds ==> t.postIds[k] < t.nextId)
    && (forall k1, k2 :: k1 in t.postIds && k2 in t.postIds && k1 != k2 ==> t.postIds[k1] != t.postIds[k2])
    && (forall j :: 0 <= j < |t.metrics| ==> t.metrics[j].postId in t.postIds.Values)
  }

  /** Upsert into company_profile, keyed by name. */
  function PutCompany(t: Tables, row: CompanyRow): (r: Tables)
    ensures row.name in r.companies && r.companies[row.name] == row
    ensures forall n :: n in t.companies && n != row.name ==> n in r.companies && r.companies[n] == t.companies[n]
    ensures r.companies.Keys == t.companies.Keys + {row.name}
    ensures r.posts == t.posts && r.postIds == t.postIds && r.metrics == t.metrics && r.nextId == t.nextId
  {
    t.(companies := t.companies[row.name := row])
  }

  /** Writing one key is the same as overriding with a one-entry map. */
  lemma UpdateAsUnion<K, V>(m: map<K, V>, k: K, v: V)
    ensures m[k := v] == m + map[k := v]
  {
  }

  /** Overriding with two maps in turn is overriding with their union. */
  lemma UnionAssociates<K, V>(a: map<K, V>, b: map<K, V>, c: map<K, V>)
    ensures a + b + c == a + (b + c)
  {
  }

  /** Overriding twice with the same map is overriding once. */
  lemma UnionIdempotent<K, V>(m: map<K, V>, w: map<K, V>)
    ensures m + w + w == m + w
  {
  }

  /** Extending a map with a fresh key keeps every value it already had. */
  lemma ValuesKept(m: map<Value, nat>, key: Value, id: nat)
    requires key !in m
    ensures m.Values + {id} == m[key := id].Values
  {
    var m' := m[key := id];
    forall v | v in m.Values ensures v in m'.Values {
      var k :| k in m && m[k] == v;
      assert m'[k] == v;
    }
    assert m'[key] == id;
  }

  /** Upsert into posts, keyed by the post id; yields the identity of the
      stored post. */
  function PutPost(t: Tables, row: PostRow): (r: (Tables, nat))
    ensures r.0.posts == t.posts[row.linkedinPostId := row]
    ensures row.linkedinPostId in r.0.postIds && r.0.postIds[row.linkedinPostId] == r.1
    // an existing post keeps its identity; a new one takes the next unused one
    ensures forall k :: k in t.postIds ==> k in r.0.postIds && r.0.postIds[k] == t.postIds[k]
    ensures row.linkedinPostId in t.postIds ==> r.0.postIds == t.postIds && r.0.nextId == t.nextId
    ensures row.linkedinPostId !in t.postIds ==> r.1 == t.nextId && r.0.nextId == t.nextId + 1
    ensures r.0.postIds.Keys == t.postIds.Keys + {row.linkedinPostId}
    ensures r.0.companies == t.companies && r.0.metrics == t.metrics
  {
    var key := row.linkedinPostId;
    if key in t.postIds then
      (t.(posts := t.posts[key := row]), t.postIds[key])
    else
      (t.(posts := t.posts[key := row], postIds := t.postIds[key := t.nextId], nextId := t.nextId + 1), t.nextId)
  }

  /** Insert into engagement_metrics: rows are only ever appended. */
  function AppendMetrics(t: Tables, row: MetricsRow): (r: Tables)
    ensures r.metrics == t.metrics + [row]
    ensures r.companies == t.companies && r.posts == t.posts && r.postIds == t.postIds && r.nextId == t.nextId
  {
    t.(metrics := t.metrics + [row])
  }

  lemma PutCompanyWellFormed(t: Tables, row: CompanyRow)
    requires WellFormed(t)
    ensures WellFormed(PutCompany(t, row))
  {
  }

  /** A new post gets an identity that no stored post has. */
  lemma PutPostWellFormed(t: Tables, row: PostRow)
    requires WellFormed(t)
    ensures WellFormed(PutPost(t, row).0)
    ensures row.linkedinPostId !in t.postIds ==> PutPost(t, row).1 !in t.postIds.Values
  {
    if row.linkedinPostId !in t.postIds {
      ValuesKept(t.postIds, row.linkedinPostId, t.nextId);
    }
  }

  /** A metrics row may be appended only for a stored post. */
  lemma AppendMetricsWellFormed(t: Tables, row: MetricsRow)
    requires WellFormed(t) && row.postId in t.postIds.Values
    ensures WellFormed(AppendMetrics(t, row))
  {
  }

  /** What a posts upsert hands back: it raised, or it returned the identities
      of the rows it wrote (none when the store is set not to return rows). */
  datatype PostReply = Raised | Returned(ids: seq<nat>)

  /** The Supabase client: the three tables as fields that every write updates
      in place. Whether a call raises (a network or constraint error) is
      decided outside the model and passed in. */
  class Store {
    var companies: map<Value, CompanyRow>
    var posts: map<Value, PostRow>
    var postIds: map<Value, nat>
    var metrics: seq<MetricsRow>
    var nextId: nat

    function State(): Tables
      reads this
    {
      Tables(companies, posts, postIds, metrics, nextId)
    }

    ghost predicate Valid()
      reads this
    {
      WellFormed(State())
    }

    constructor ()
      ensures Valid() && State() == Empty
    {
      companies, posts, postIds, metrics, nextId := map[], map[], map[], [], 0;
    }

    method UpsertCompany(row: CompanyRow, raises: bool) returns (ok: bool)
      requires Valid()
      modifies this
      ensures Valid()
      ensures ok == !raises
      ensures State() == if ok then PutCompany(old(State()), row) else old(State())
    {
      PutCompanyWellFormed(State(), row);
      if raises {
        return false;
      }
      companies := companies[row.name := row];
      return true;
    }

    method UpsertPost(row: PostRow, raises: bool, returnsRows: bool) returns (reply: PostReply)
      requires Valid()
      modifies this
      ensures Valid()
      ensures raises ==> reply == Raised && State() == old(State())
      ensures !raises ==> State() == PutPost(old(State()), row).0
      ensures !raises ==> reply == Returned(if returnsRows then [PutPost(old(State()), row).1] else [])
    {
      if raises {
        return Raised;
      }
      ghost var after := PutPost(State(), row);
      PutPostWellFormed(State(), row);
      var key := row.linkedinPostId;
      var id: nat;
      if key in postIds {
        id := postIds[key];
      } else {
        id := nextId;
        postIds := postIds[key := id];
        nextId := nextId + 1;
      }
      posts := posts[key := row];
      reply := Returned(if returnsRows then [id] else []);
      assert State() == after.0 && id == after.1;
    }

    method InsertMetrics(row: MetricsRow, raises: bool) returns (ok: bool)
      requires Valid() && row.postId in postIds.Values
      modifies this
      ensures Valid()
      ensures ok == !raises
      ensures State() == if ok then AppendMetrics(old(State()), row) else old(State())
    {
      AppendMetricsWellFormed(State(), row);
      if raises {
        return false;
      }
      metrics := metrics + [row];
      return true;
    }
  }
}
