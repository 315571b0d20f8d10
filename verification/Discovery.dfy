/** The discovery listing served from the index: scored, filtered, ranked and
    cut into pages. */
module Discovery {

  import opened Decay
  import opened IndexDb
  import opened IndexMirror
  import opened LogHistory

  /** Which contract generation the indexer found, and so which counter it scores. */
  datatype Signal = Credit | TwoSided | SelfAttest

  datatype Query = Query(capabilityType: nat, minScore: int, signal: Signal, now: int, graceSecs: int, horizonSecs: int)

  datatype Item = Item(capabilityId: nat, agent: Address, count: int, disputes: int, score: int)

  function CountFor(t: Tables, a: Address, signal: Signal): int
  {
    match signal
    case Credit => Distinct(t.diversity, a)
    case TwoSided => ConfirmedOf(t.scores, a)
    case SelfAttest => CompletionsOf(t.scores, a)
  }

  /** The entry a capability gets; an agent without a score row counts as all zeros. */
  function ItemFor(t: Tables, id: nat, q: Query): Item
    requires id in t.capabilities
  {
    var a := t.capabilities[id].creator;
    var count, disputes := CountFor(t, a, q.signal), DisputesOf(t.scores, a);
    Item(id, a, count, disputes,
         IndexedScore(count, disputes, LastActivityOf(t.scores, a), q.now, q.graceSecs, q.horizonSecs))
  }

  predicate Offered(capabilities: map<nat, Capability>, id: nat, capabilityType: nat)
  {
    && id in capabilities && capabilities[id].capabilityType == capabilityType
    && capabilities[id].certified && !capabilities[id].slashed
  }

  predicate Listed(t: Tables, id: nat, q: Query)
  {
    Offered(t.capabilities, id, q.capabilityType) && ItemFor(t, id, q).score >= q.minScore
  }

  /** Higher scores first; capability ids settle ties. */
  predicate Outranks(a: Item, b: Item)
  {
    a.score > b.score || (a.score == b.score && a.capabilityId < b.capabilityId)
  }

  ghost predicate Ranked(items: seq<Item>)
  {
    forall i, j :: 0 <= i < j < |items| ==> Outranks(items[i], items[j])
  }

  /** The one listing of a query: exactly the listed capabilities, in rank order. */
  ghost predicate IsRanking(items: seq<Item>, t: Tables, q: Query)
  {
    && Ranked(items)
    && (forall id :: Listed(t, id, q) ==> ItemFor(t, id, q) in items)
    && (forall it :: it in items ==> Listed(t, it.capabilityId, q) && it == ItemFor(t, it.capabilityId, q))
  }

  // ---- the ranking is unique ----

  lemma {:induction false} RankedSameMembers(a: seq<Item>, b: seq<Item>)
    requires Ranked(a) && Ranked(b) && forall it :: it in a <==> it in b
    ensures a == b
  {
    assert b != [] ==> b[0] in b;
    if a != [] {
      assert a[0] in b && |b| > 0;
      assert b[0] in a;
      assert a[0] == b[0];
      RestMembers(a);
      RestMembers(b);
      RankedSameMembers(a[1..], b[1..]);
      assert a == [a[0]] + a[1..] && b == [b[0]] + b[1..];
    }
  }

  lemma RestMembers(a: seq<Item>)
    requires Ranked(a) && a != []
    ensures forall it :: it in a[1..] <==> it in a && it != a[0]
  {
    forall it
      ensures it in a[1..] <==> it in a && it != a[0]
    {
      if it in a && it != a[0] {
        var i :| 0 <= i < |a| && a[i] == it;
        assert a[1..][i - 1] == it;
      }
    }
  }

  /** Two answers to the same query over the same tables are cut from the same listing. */
  lemma RankingIsUnique(a: seq<Item>, b: seq<Item>, t: Tables, q: Query)
    requires IsRanking(a, t, q) && IsRanking(b, t, q)
    ensures a == b
  {
    forall it
      ensures it in a <==> it in b
    {
      if it in a {
        assert ItemFor(t, it.capabilityId, q) in b;
      }
      if it in b {
        assert ItemFor(t, it.capabilityId, q) in a;
      }
    }
    RankedSameMembers(a, b);
  }

  // ---- pages ----

  function Clip(n: nat, length: nat): nat
  {
    if n <= length then n else length
  }

  /** Entries `offset` to `offset + limit - 1`, as far as there are any. */
  function Page(items: seq<Item>, offset: nat, limit: nat): seq<Item>
  {
    items[Clip(offset, |items|)..Clip(offset + limit, |items|)]
  }

  /** A page holds the entries from its offset on, as many as asked for or as there are. */
  lemma PageIs(items: seq<Item>, offset: nat, limit: nat)
    ensures
      var page := Page(items, offset, limit);
      && |page| == (if offset >= |items| then 0 else if |items| - offset < limit then |items| - offset else limit)
      && forall k :: 0 <= k < |page| ==> page[k] == items[offset + k]
  {
  }

  /** The first `n` pages of one size. */
  function Pages(items: seq<Item>, limit: nat, n: nat): seq<Item>
  {
    if n == 0 then [] else Pages(items, limit, n - 1) + Page(items, (n - 1) * limit, limit)
  }

  /** Turning pages shows every entry once, in rank order, and leaves none out. */
  lemma {:induction false} PagesCover(items: seq<Item>, limit: nat, n: nat)
    ensures Pages(items, limit, n) == items[..Clip(n * limit, |items|)]
    ensures n * limit >= |items| ==> Pages(items, limit, n) == items
  {
    if n == 0 {
      assert n * limit == 0;
    } else {
      PagesCover(items, limit, n - 1);
      assert n * limit == (n - 1) * limit + limit;
      NextPage(items, (n - 1) * limit, limit);
    }
  }

  lemma NextPage(items: seq<Item>, shown: nat, limit: nat)
    ensures items[..Clip(shown, |items|)] + Page(items, shown, limit) == items[..Clip(shown + limit, |items|)]
  {
  }

  // ---- what a listing says about the chain ----

  function LiveCounterparties(v: View, a: Address): set<Pair>
  {
    set id | id in v.live && v.live[id].agent == a :: v.live[id]
  }

  function DirectCount(v: View, a: Address, signal: Signal): nat
  {
    match signal
    case Credit => |LiveCounterparties(v, a)|
    case TwoSided => |LiveOf(v, a)|
    case SelfAttest => |OwnedBy(v, a)|
  }

  /** Every listed entry can be worked out from the chain alone: live receipts or
      their distinct issuers, less the rulings against the agent, decayed since
      its latest attestation or receipt. */
  lemma ListedEntriesAreDirect(logs: seq<Log>, id: nat, q: Query)
    requires LawfulLogs(logs) && id in Fold(NO_TABLES, logs).capabilities
    ensures
      var it := ItemFor(Fold(NO_TABLES, logs), id, q);
      var count, rulings := DirectCount(ViewOf(logs), it.agent, q.signal), RulingsAgainst(logs, it.agent);
      && it.count == count && it.disputes == rulings
      && it.score == LinearDecayScore(count, rulings, LatestActivity(logs, it.agent), q.now, q.graceSecs, q.horizonSecs)
  {
    var t, v := Fold(NO_TABLES, logs), ViewOf(logs);
    var a := t.capabilities[id].creator;
    CountersAgree(logs, a);
    DisputesAreRulings(logs, a);
    DistinctIsLive(t.pairs, v, a);
    ActivityIsLatest(logs, a);
    IndexerAgreesWithSimulator(CountFor(t, a, q.signal), DisputesOf(t.scores, a), LastActivityOf(t.scores, a),
                               q.now, q.graceSecs, q.horizonSecs);
  }

  /** The score the chain alone gives a capability's creator. */
  ghost function DirectScore(logs: seq<Log>, a: Address, q: Query): int
  {
    LinearDecayScore(DirectCount(ViewOf(logs), a, q.signal), RulingsAgainst(logs, a), LatestActivity(logs, a), q.now,
                     q.graceSecs, q.horizonSecs)
  }

  /** The whole listing told from the logs: a capability is on it if and only if the chain offers
      it under that type and its latest registrant scores enough; its entry names that
      registrant and that score; and scores fall, ties in id order. */
  lemma ListingFromLogs(items: seq<Item>, logs: seq<Log>, q: Query)
    requires LawfulLogs(logs) && IsRanking(items, Fold(NO_TABLES, logs), q)
    ensures forall it :: it in items ==> OfferedBy(logs, it.capabilityId, q.capabilityType)
    ensures forall it, i :: it in items && Latest(logs, i, it.capabilityId) ==>
              it.agent == logs[i].event.creator && it.score == DirectScore(logs, it.agent, q)
    ensures forall id, i :: Latest(logs, i, id) ==>
              ((exists it :: it in items && it.capabilityId == id)
               <==> OfferedBy(logs, id, q.capabilityType)
                    && DirectScore(logs, logs[i].event.creator, q) >= q.minScore)
    ensures forall i, j :: 0 <= i < j < |items| ==>
              items[i].score > items[j].score
              || (items[i].score == items[j].score && items[i].capabilityId < items[j].capabilityId)
  {
    var t := Fold(NO_TABLES, logs);
    forall it | it in items
      ensures OfferedBy(logs, it.capabilityId, q.capabilityType)
    {
      OfferedIff(logs, it.capabilityId, q.capabilityType);
    }
    forall id, i | Latest(logs, i, id)
      ensures id in t.capabilities && ItemFor(t, id, q).agent == logs[i].event.creator
      ensures ItemFor(t, id, q).score == DirectScore(logs, logs[i].event.creator, q)
      ensures (exists it :: it in items && it.capabilityId == id)
         <==> OfferedBy(logs, id, q.capabilityType) && DirectScore(logs, logs[i].event.creator, q) >= q.minScore
    {
      OfferedIff(logs, id, q.capabilityType);
      ListedEntriesAreDirect(logs, id, q);
      if Listed(t, id, q) {
        assert ItemFor(t, id, q) in items && ItemFor(t, id, q).capabilityId == id;
      }
    }
  }

  lemma DistinctIsLive(pairs: map<Pair, nat>, v: View, a: Address)
    requires forall p :: p in pairs <==> LiveFor(v, p) != {}
    ensures Counterparties(pairs, a) == LiveCounterparties(v, a)
  {
    forall p
      ensures p in Counterparties(pairs, a) <==> p in LiveCounterparties(v, a)
    {
      if p in Counterparties(pairs, a) {
        var id :| id in LiveFor(v, p);
        assert v.live[id] == p;
      }
      if p in LiveCounterparties(v, a) {
        var id :| id in v.live && v.live[id] == p;
        assert id in LiveFor(v, p);
      }
    }
  }

  /** With no new logs, time only takes entries off a listing and never raises a score. */
  lemma ListingsOnlyDecay(t: Tables, id: nat, q: Query, later: int)
    requires q.now <= later && id in t.capabilities
    ensures ItemFor(t, id, q.(now := later)).score <= ItemFor(t, id, q).score
    ensures Listed(t, id, q.(now := later)) ==> Listed(t, id, q)
  {
    var a := t.capabilities[id].creator;
    IndexedNonIncreasingInNow(CountFor(t, a, q.signal), DisputesOf(t.scores, a), LastActivityOf(t.scores, a),
                              q.now, later, q.graceSecs, q.horizonSecs);
  }

  // ---- the query itself ----

  ghost predicate Ascending(ids: seq<nat>)
  {
    forall i, j :: 0 <= i < j < |ids| ==> ids[i] < ids[j]
  }

  /** Put an id in its place among ascending ids. */
  method InsertId(ids: seq<nat>, id: nat) returns (r: seq<nat>)
    requires Ascending(ids) && id !in ids
    ensures Ascending(r) && forall j :: j in r <==> j in ids || j == id
  {
    var i := |ids|;
    while i > 0 && ids[i - 1] > id
      invariant 0 <= i <= |ids|
      invariant i < |ids| ==> id < ids[i]
    {
      i := i - 1;
    }
    r := ids[..i] + [id] + ids[i..];
    assert ids == ids[..i] + ids[i..];
    IdInserted(ids, i, id);
  }

  lemma IdInserted(ids: seq<nat>, i: nat, id: nat)
    requires Ascending(ids) && i <= |ids| && id !in ids
    requires (i > 0 ==> ids[i - 1] <= id) && (i < |ids| ==> id < ids[i])
    ensures Ascending(ids[..i] + [id] + ids[i..])
  {
    var r := ids[..i] + [id] + ids[i..];
    assert i > 0 ==> ids[i - 1] in ids;
    forall a, b | 0 <= a < b < |r|
      ensures r[a] < r[b]
    {
      assert a < i && b == i && a < i - 1 ==> ids[a] < ids[i - 1];
      assert a == i && b > i + 1 ==> ids[i] < ids[b - 1];
      assert a < i < b ==> ids[a] < ids[b - 1];
    }
  }

  /** Certified, unslashed capabilities of one type, in id order. */
  method QueryIndexedCapabilities(db: Database, capabilityType: nat) returns (ids: seq<nat>)
    ensures Ascending(ids) && forall id :: id in ids <==> Offered(db.capabilities, id, capabilityType)
    ensures forall logs: seq<Log>, id: nat :: db.capabilities == Fold(NO_TABLES, logs).capabilities ==>
              (id in ids <==> OfferedBy(logs, id, capabilityType))
  {
    forall logs: seq<Log>, id: nat
      ensures OfferedBy(logs, id, capabilityType) <==> Offered(Fold(NO_TABLES, logs).capabilities, id, capabilityType)
    {
      OfferedIff(logs, id, capabilityType);
    }
    ids := [];
    var todo := db.capabilities.Keys;
    while todo != {}
      invariant todo <= db.capabilities.Keys && Ascending(ids)
      invariant forall id :: id in ids <==> Offered(db.capabilities, id, capabilityType) && id !in todo
      decreases |todo|
    {
      var id :| id in todo;
      todo := todo - {id};
      if Offered(db.capabilities, id, capabilityType) {
        ids := InsertId(ids, id);
      }
    }
  }

  /** One step of a stable sort by score: a new entry goes behind its equals. */
  method InsertItem(sorted: seq<Item>, it: Item) returns (r: seq<Item>)
    requires Ranked(sorted) && forall s :: s in sorted ==> s.capabilityId < it.capabilityId
    ensures Ranked(r) && |r| == |sorted| + 1
    ensures forall s :: s in r <==> s in sorted || s == it
  {
    var i := |sorted|;
    while i > 0 && it.score - sorted[i - 1].score > 0
      invariant 0 <= i <= |sorted|
      invariant i < |sorted| ==> it.score > sorted[i].score
    {
      i := i - 1;
    }
    r := sorted[..i] + [it] + sorted[i..];
    assert sorted == sorted[..i] + sorted[i..];
    ItemInserted(sorted, i, it);
  }

  lemma ItemInserted(sorted: seq<Item>, i: nat, it: Item)
    requires Ranked(sorted) && i <= |sorted| && forall s :: s in sorted ==> s.capabilityId < it.capabilityId
    requires (i > 0 ==> sorted[i - 1].score >= it.score) && (i < |sorted| ==> it.score > sorted[i].score)
    ensures Ranked(sorted[..i] + [it] + sorted[i..])
  {
    var r := sorted[..i] + [it] + sorted[i..];
    forall a, b | 0 <= a < b < |r|
      ensures Outranks(r[a], r[b])
    {
      assert a < i ==> r[a] in sorted;
      assert a < i && b == i && a < i - 1 ==> Outranks(sorted[a], sorted[i - 1]);
      assert a == i && b > i + 1 ==> Outranks(sorted[i], sorted[b - 1]);
      assert a < i < b ==> Outranks(sorted[a], sorted[b - 1]);
    }
  }

  /** One page of the listing, and how long the whole listing is. */
  method QueryIndexedDiscovery(db: Database, q: Query, offset: nat, limit: nat)
    returns (items: seq<Item>, total: nat)
    ensures exists ranking :: IsRanking(ranking, db.Value(), q)
              && items == Page(ranking, offset, limit) && total == |ranking|
  {
    var rows := QueryIndexedCapabilities(db, q.capabilityType);
    var scored: seq<Item> := [];
    for i := 0 to |rows|
      invariant Ranked(scored)
      invariant forall it :: it in scored <==>
                  it.capabilityId in rows[..i] && Listed(db.Value(), it.capabilityId, q)
                  && it == ItemFor(db.Value(), it.capabilityId, q)
    {
      assert rows[i] in rows;
      var it := ItemFor(db.Value(), rows[i], q);
      assert rows[..i + 1] == rows[..i] + [rows[i]];
      if !(it.score < q.minScore) {
        scored := InsertItem(scored, it);
      }
    }
    assert rows[..|rows|] == rows;
    assert IsRanking(scored, db.Value(), q);
    total := |scored|;
    items := scored[Clip(offset, |scored|)..Clip(offset + limit, |scored|)];
  }
}
