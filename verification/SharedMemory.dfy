/**
 The shared memory pool: records are appended, and retrieval ranks the matching ones by token
 overlap with the query, newer records first among equals.
 */
module SharedMemory {
  import opened Wrappers

  datatype Record = Record(memory: string, userId: string, metadata: map<string, string>, memoryId: string)

  /** Where a memory comes from; `more` holds the trace ids, confidence and trust level that are given. */
  datatype MemoryScope = MemoryScope(
    source: string, scope: string, agentName: Option<string>, more: map<string, string>, metadata: map<string, string>)

  function ToMetadata(m: MemoryScope): map<string, string> {
    var tagged := m.metadata["source" := m.source]["scope" := m.scope];
    (if m.agentName.Some? then tagged["agent_name" := m.agentName.value] else tagged) + m.more
  }

  /** The tags of a new record: those of its scope, overridden by the caller's own, and the user id if none of them has it. */
  function BuildMetadata(scope: MemoryScope, userId: string, metadata: map<string, string>): map<string, string> {
    var tags := ToMetadata(scope) + metadata;
    if "user_id" in tags then tags else tags["user_id" := userId]
  }

  /** What a retrieval asks for; a field that is None does not restrict. */
  datatype Filter = Filter(userId: Option<string>, agentName: Option<string>, source: Option<string>, scope: Option<string>)

  predicate HasTag(record: Record, tag: string, wanted: Option<string>) {
    wanted.Some? ==> tag in record.metadata && record.metadata[tag] == wanted.value
  }

  predicate Matches(record: Record, f: Filter) {
    && (f.userId.Some? ==> record.userId == f.userId.value)
    && HasTag(record, "agent_name", f.agentName) && HasTag(record, "source", f.source) && HasTag(record, "scope", f.scope)
  }

  /** A tokenizer gives the set of words of a text; nothing more is known of it. */
  type Tokenizer = string -> set<string>

  function Score(tokenize: Tokenizer, query: set<string>, record: Record): nat {
    if query == {} then 1 else |query * tokenize(record.memory)|
  }

  // ----- Ranking -----

  datatype Scored = Scored(score: nat, index: nat, record: Record)

  predicate Outranks(a: Scored, b: Scored) {
    a.score > b.score || (a.score == b.score && a.index > b.index)
  }

  ghost predicate Descending(s: seq<Scored>) {
    forall i, j | 0 <= i < j < |s| :: Outranks(s[i], s[j])
  }

  function Candidates(records: seq<Record>, f: Filter): seq<Record> {
    if records == [] then []
    else (if Matches(records[0], f) then [records[0]] else []) + Candidates(records[1..], f)
  }

  function ScoredAll(tokenize: Tokenizer, query: set<string>, candidates: seq<Record>): (r: seq<Scored>)
    ensures |r| == |candidates|
    ensures forall i | 0 <= i < |r| :: r[i] == Scored(Score(tokenize, query, candidates[i]), i, candidates[i])
  {
    seq(|candidates|, i requires 0 <= i < |candidates| => Scored(Score(tokenize, query, candidates[i]), i, candidates[i]))
  }

  function Insert(x: Scored, s: seq<Scored>): seq<Scored> {
    if s == [] || Outranks(x, s[0]) then [x] + s else [s[0]] + Insert(x, s[1..])
  }

  /** The list in descending order of score and index. */
  function Sort(s: seq<Scored>): seq<Scored> {
    if s == [] then [] else Insert(s[0], Sort(s[1..]))
  }

  function Positive(s: seq<Scored>): seq<Scored> {
    if s == [] then [] else (if s[0].score > 0 then [s[0]] else []) + Positive(s[1..])
  }

  function First(s: seq<Scored>, n: int): (r: seq<Scored>) {
    if n <= 0 then [] else if n < |s| then s[..n] else s
  }

  /** What retrieve returns: everything is sorted, the list is cut, and only then are zero scores dropped. */
  function Ranked(tokenize: Tokenizer, records: seq<Record>, query: set<string>, f: Filter, limit: int): seq<Scored> {
    var cut := First(Sort(ScoredAll(tokenize, query, Candidates(records, f))), limit);
    Kept(query, cut)
  }

  function Kept(query: set<string>, s: seq<Scored>): seq<Scored> {
    if query == {} then s else Positive(s)
  }

  function RecordsOf(s: seq<Scored>): (r: seq<Record>)
    ensures |r| == |s| && forall i | 0 <= i < |r| :: r[i] == s[i].record
  {
    if s == [] then [] else [s[0].record] + RecordsOf(s[1..])
  }

  // ----- The sorted list -----

  ghost predicate DistinctIndices(s: seq<Scored>) {
    forall i, j | 0 <= i < j < |s| :: s[i].index != s[j].index
  }

  lemma {:induction false} InsertHolds(x: Scored, s: seq<Scored>, y: Scored)
    ensures y in Insert(x, s) <==> y == x || y in s
  {
    if s == [] || Outranks(x, s[0]) {
    } else {
      InsertHolds(x, s[1..], y);
      assert y in s <==> y == s[0] || y in s[1..];
    }
  }

  lemma {:induction false} InsertDescends(x: Scored, s: seq<Scored>)
    requires Descending(s) && forall y | y in s :: y.index != x.index
    ensures Descending(Insert(x, s))
  {
    if s != [] && !Outranks(x, s[0]) {
      var rest := Insert(x, s[1..]);
      InsertDescends(x, s[1..]);
      forall j | 0 <= j < |rest|
        ensures Outranks(s[0], rest[j])
      {
        InsertHolds(x, s[1..], rest[j]);
        assert s[0] in s && s[0].index != x.index;
      }
    }
  }

  lemma {:induction false} SortHolds(s: seq<Scored>, y: Scored)
    ensures y in Sort(s) <==> y in s
  {
    if s != [] {
      SortHolds(s[1..], y);
      InsertHolds(s[0], Sort(s[1..]), y);
      assert y in s <==> y == s[0] || y in s[1..];
    }
  }

  lemma {:induction false} SortDescends(s: seq<Scored>)
    requires DistinctIndices(s)
    ensures Descending(Sort(s))
  {
    if s != [] {
      SortDescends(s[1..]);
      forall y | y in Sort(s[1..])
        ensures y.index != s[0].index
      {
        SortHolds(s[1..], y);
      }
      InsertDescends(s[0], Sort(s[1..]));
    }
  }

  lemma {:induction false} InsertLength(x: Scored, s: seq<Scored>)
    ensures |Insert(x, s)| == |s| + 1
  {
    if s != [] && !Outranks(x, s[0]) {
      InsertLength(x, s[1..]);
    }
  }

  lemma {:induction false} SortLength(s: seq<Scored>)
    ensures |Sort(s)| == |s|
  {
    if s != [] {
      SortLength(s[1..]);
      InsertLength(s[0], Sort(s[1..]));
    }
  }

  // ----- Dropping zero scores after the cut or before the sort -----

  lemma {:induction false} PositiveHolds(s: seq<Scored>, y: Scored)
    ensures y in Positive(s) <==> y in s && y.score > 0
  {
    if s != [] {
      PositiveHolds(s[1..], y);
      assert y in s <==> y == s[0] || y in s[1..];
    }
  }

  lemma {:induction false} AllZero(s: seq<Scored>)
    requires forall y | y in s :: y.score == 0
    ensures Positive(s) == []
  {
    if s != [] {
      AllZero(s[1..]);
    }
  }

  lemma ZeroOnward(s: seq<Scored>)
    requires Descending(s) && s != [] && s[0].score == 0
    ensures Positive(s) == []
  {
    AllZero(s);
  }

  lemma PositiveOfCons(x: Scored, s: seq<Scored>)
    ensures Positive([x] + s) == (if x.score > 0 then [x] else []) + Positive(s)
  {
    assert ([x] + s)[1..] == s;
  }

  lemma OutranksAll(x: Scored, s: seq<Scored>, y: Scored)
    requires Descending(s) && s != [] && Outranks(x, s[0]) && y in s
    ensures Outranks(x, y)
  {
    var k :| 0 <= k < |s| && s[k] == y;
    assert k > 0 ==> Outranks(s[0], s[k]);
  }

  lemma {:induction false} PositiveOfInsert(x: Scored, s: seq<Scored>)
    requires Descending(s)
    ensures Positive(Insert(x, s)) == if x.score > 0 then Insert(x, Positive(s)) else Positive(s)
  {
    if s == [] || Outranks(x, s[0]) {
      PositiveOfCons(x, s);
      assert [] + Positive(s) == Positive(s);
      if x.score > 0 && Positive(s) != [] {
        PositiveHolds(s, Positive(s)[0]);
        assert Positive(s)[0] in Positive(s);
        OutranksAll(x, s, Positive(s)[0]);
      }
    } else {
      PositiveOfInsert(x, s[1..]);
      PositiveOfCons(s[0], Insert(x, s[1..]));
      PositiveOfCons(s[0], s[1..]);
      assert s == [s[0]] + s[1..];
      if s[0].score == 0 {
        assert x.score == 0;
        assert Positive(s) == Positive(s[1..]);
      } else if x.score > 0 {
        var p := Positive(s);
        assert p[0] == s[0] && p[1..] == Positive(s[1..]);
        assert Insert(x, p) == [s[0]] + Insert(x, Positive(s[1..]));
      }
    }
  }

  lemma {:induction false} PositiveOfSort(s: seq<Scored>)
    requires DistinctIndices(s)
    ensures Positive(Sort(s)) == Sort(Positive(s))
  {
    if s != [] {
      SortDescends(s[1..]);
      PositiveOfSort(s[1..]);
      PositiveOfInsert(s[0], Sort(s[1..]));
      var p := Positive(s[1..]);
      if s[0].score > 0 {
        assert Positive(s) == [s[0]] + p && ([s[0]] + p)[1..] == p;
      } else {
        assert Positive(s) == [] + p == p;
      }
    }
  }

  lemma {:induction false} PositiveOfFirst(s: seq<Scored>, n: int)
    requires Descending(s)
    ensures Positive(First(s, n)) == First(Positive(s), n)
  {
    if s != [] && n > 0 {
      if s[0].score == 0 {
        ZeroOnward(s);
        ZeroOnward(First(s, n));
      } else {
        PositiveOfFirst(s[1..], n - 1);
        assert First(s, n)[0] == s[0] && First(s, n)[1..] == First(s[1..], n - 1);
        assert Positive(s)[0] == s[0] && Positive(s)[1..] == Positive(s[1..]);
      }
    }
  }

  // ----- Main results -----

  /** The matching records that may be returned: those of positive score, or all for an empty query. */
  function Eligible(tokenize: Tokenizer, records: seq<Record>, query: set<string>, f: Filter): seq<Scored> {
    var scored := ScoredAll(tokenize, query, Candidates(records, f));
    Kept(query, scored)
  }

  /** Sorting, cutting and then dropping zero scores is: keep the eligible records, sort, and take the first `limit`. */
  lemma RetrievalIsTheTopOfTheEligible(tokenize: Tokenizer, records: seq<Record>, query: set<string>, f: Filter, limit: int)
    ensures Ranked(tokenize, records, query, f, limit) == First(Sort(Eligible(tokenize, records, query, f)), limit)
  {
    var scored := ScoredAll(tokenize, query, Candidates(records, f));
    SortDescends(scored);
    PositiveOfSort(scored);
    PositiveOfFirst(Sort(scored), limit);
  }

  lemma {:induction false} PositiveIsDistinct(s: seq<Scored>)
    requires DistinctIndices(s)
    ensures DistinctIndices(Positive(s))
  {
    if s != [] {
      PositiveIsDistinct(s[1..]);
      forall j | 0 <= j < |Positive(s[1..])|
        ensures Positive(s[1..])[j].index != s[0].index
      {
        PositiveHolds(s[1..], Positive(s[1..])[j]);
      }
    }
  }

  /**
   The result is in descending rank, holds only eligible records and as many of them as `limit`
   allows, and an eligible record is left out only when the list is full of records that outrank it.
   */
  lemma NothingOmittedOutranks(tokenize: Tokenizer, records: seq<Record>, query: set<string>, f: Filter, limit: int, y: Scored)
    ensures var eligible := Eligible(tokenize, records, query, f);
            var r := Ranked(tokenize, records, query, f, limit);
            && Descending(r) && |r| == (if limit <= 0 then 0 else if limit < |eligible| then limit else |eligible|)
            && (y in r ==> y in eligible)
            && (y in eligible && y !in r && limit > 0 ==> |r| == limit && forall x | x in r :: Outranks(x, y))
  {
    var eligible := Eligible(tokenize, records, query, f);
    RetrievalIsTheTopOfTheEligible(tokenize, records, query, f, limit);
    PositiveIsDistinct(ScoredAll(tokenize, query, Candidates(records, f)));
    SortDescends(eligible);
    SortHolds(eligible, y);
    SortLength(eligible);
    var sorted := Sort(eligible);
    if y in eligible && limit > 0 && y !in First(sorted, limit) {
      var k :| 0 <= k < |sorted| && sorted[k] == y;
      assert limit <= k;
    }
  }

  lemma {:induction false} CandidatesMatch(records: seq<Record>, f: Filter, x: Record)
    ensures x in Candidates(records, f) <==> x in records && Matches(x, f)
  {
    if records != [] {
      CandidatesMatch(records[1..], f, x);
      assert x in records <==> x == records[0] || x in records[1..];
    }
  }

  /** Every record returned is a stored one that passes the filter and, unless the query is empty, shares a word with it. */
  lemma ReturnedRecordsMatch(tokenize: Tokenizer, records: seq<Record>, query: set<string>, f: Filter, limit: int, y: Scored)
    requires y in Ranked(tokenize, records, query, f, limit)
    ensures y.record in records && Matches(y.record, f)
    ensures query != {} ==> exists w :: w in query && w in tokenize(y.record.memory)
  {
    NothingOmittedOutranks(tokenize, records, query, f, limit, y);
    var scored := ScoredAll(tokenize, query, Candidates(records, f));
    PositiveHolds(scored, y);
    CandidatesMatch(records, f, y.record);
    if query != {} {
      assert query * tokenize(y.record.memory) != {};
      var w :| w in query * tokenize(y.record.memory);
    }
  }

  function Reverse(s: seq<Record>): (r: seq<Record>)
    ensures |r| == |s|
  {
    if s == [] then [] else Reverse(s[1..]) + [s[0]]
  }

  lemma {:induction false} AscendingIsReversed(s: seq<Scored>)
    requires forall i, j | 0 <= i < j < |s| :: Outranks(s[j], s[i])
    ensures |Sort(s)| == |s| && RecordsOf(Sort(s)) == Reverse(RecordsOf(s))
    ensures forall y {:trigger y in Sort(s)} :: y in Sort(s) <==> y in s
  {
    if s != [] {
      var rest := Sort(s[1..]);
      AscendingIsReversed(s[1..]);
      forall y | y in rest
        ensures Outranks(y, s[0])
      {
        var i :| 0 <= i < |s[1..]| && s[1..][i] == y;
        assert s[i + 1] == y;
      }
      InsertLast(s[0], rest);
      assert RecordsOf(s)[1..] == RecordsOf(s[1..]);
      assert RecordsOf(rest + [s[0]]) == RecordsOf(rest) + [s[0].record];
      assert forall y :: y in s <==> y == s[0] || y in s[1..];
    }
  }

  lemma {:induction false} InsertLast(x: Scored, s: seq<Scored>)
    requires forall y | y in s :: Outranks(y, x)
    ensures Insert(x, s) == s + [x]
  {
    if s != [] {
      assert s[0] in s;
      InsertLast(x, s[1..]);
    }
  }

  /** An empty query returns the newest matching records, newest first. */
  lemma EmptyQueryReturnsTheNewest(tokenize: Tokenizer, records: seq<Record>, f: Filter, limit: int)
    requires limit > 0
    ensures var newest := Reverse(Candidates(records, f));
            RecordsOf(Ranked(tokenize, records, {}, f, limit)) == if limit < |newest| then newest[..limit] else newest
  {
    var scored := ScoredAll(tokenize, {}, Candidates(records, f));
    AscendingIsReversed(scored);
    assert RecordsOf(scored) == Candidates(records, f);
  }

  // ----- Operations side by side -----

  lemma {:induction false} CandidatesConcat(a: seq<Record>, b: seq<Record>, f: Filter)
    ensures Candidates(a + b, f) == Candidates(a, f) + Candidates(b, f)
  {
    if a == [] {
      assert a + b == b;
    } else {
      assert (a + b)[0] == a[0] && (a + b)[1..] == a[1..] + b;
      CandidatesConcat(a[1..], b, f);
    }
  }

  lemma CandidatesOfCons(x: Record, rest: seq<Record>, f: Filter)
    ensures Candidates([x] + rest, f) == (if Matches(x, f) then [x] else []) + Candidates(rest, f)
  {
    assert ([x] + rest)[1..] == rest;
  }

  lemma CandidatesOfAppend(records: seq<Record>, x: Record, f: Filter)
    ensures Candidates(records + [x], f) == Candidates(records, f) + (if Matches(x, f) then [x] else [])
  {
    CandidatesConcat(records, [x], f);
    CandidatesOfCons(x, [], f);
    assert [x] + [] == [x];
    assert [x][1..] == [];
  }

  /** What is stored for one user changes no retrieval of another. */
  lemma StoreIsInvisibleToOthers(tokenize: Tokenizer, records: seq<Record>, x: Record, query: set<string>, f: Filter, limit: int)
    requires f.userId.Some? && f.userId.value != x.userId
    ensures Ranked(tokenize, records + [x], query, f, limit) == Ranked(tokenize, records, query, f, limit)
  {
    CandidatesOfAppend(records, x, f);
    assert Candidates(records, f) + [] == Candidates(records, f);
  }

  /** The caller gives none of the tags that a retrieval filters by. */
  predicate LeavesTags(metadata: map<string, string>) {
    "source" !in metadata && "scope" !in metadata && "agent_name" !in metadata
  }

  /** A stored record is found by its user, source, scope and agent, and by no other source, unless the caller's own tags override them. */
  lemma StoreIsFoundByItsScope(scope: MemoryScope, data: string, userId: string, metadata: map<string, string>, memoryId: string, f: Filter)
    requires LeavesTags(metadata) && LeavesTags(scope.more)
    requires scope.agentName.None? ==> "agent_name" !in scope.metadata
    ensures var x := Record(data, userId, BuildMetadata(scope, userId, metadata), memoryId);
            Matches(x, f) <==>
            && (f.userId.Some? ==> f.userId.value == userId) && (f.source.Some? ==> f.source.value == scope.source)
            && (f.scope.Some? ==> f.scope.value == scope.scope) && (f.agentName.Some? ==> f.agentName == scope.agentName)
  {
    var tags := ToMetadata(scope) + metadata;
    assert tags["source"] == scope.source && tags["scope"] == scope.scope;
    assert "agent_name" in tags <==> scope.agentName.Some?;
  }

  /** What was stored last comes first when the query is empty and the filter lets it pass. */
  lemma StoreIsSeenFirst(tokenize: Tokenizer, records: seq<Record>, x: Record, f: Filter, limit: int)
    requires Matches(x, f) && limit > 0
    ensures var r := RecordsOf(Ranked(tokenize, records + [x], {}, f, limit)); r != [] && r[0] == x
  {
    EmptyQueryReturnsTheNewest(tokenize, records + [x], f, limit);
    CandidatesOfAppend(records, x, f);
    ReverseOfAppend(Candidates(records, f), x);
  }

  lemma {:induction false} ReverseOfAppend(s: seq<Record>, x: Record)
    ensures Reverse(s + [x]) == [x] + Reverse(s)
  {
    if s == [] {
      assert [x][1..] == [];
    } else {
      assert (s + [x])[0] == s[0] && (s + [x])[1..] == s[1..] + [x];
      ReverseOfAppend(s[1..], x);
    }
  }

  /** The records that a clear leaves behind. */
  function Cleared(records: seq<Record>, userId: Option<string>): seq<Record> {
    if userId.None? || records == [] then []
    else (if records[0].userId != userId.value then [records[0]] else []) + Cleared(records[1..], userId)
  }

  /** Clearing a user leaves nothing of theirs to retrieve and changes no retrieval of another user. */
  lemma {:induction false} ClearForgetsOnlyTheUser(records: seq<Record>, userId: string, f: Filter)
    requires f.userId.Some?
    ensures Candidates(Cleared(records, Some(userId)), f) == if f.userId.value == userId then [] else Candidates(records, f)
  {
    if records != [] {
      ClearForgetsOnlyTheUser(records[1..], userId, f);
      var rest := Cleared(records[1..], Some(userId));
      assert [] + rest == rest && [] + Candidates(rest, f) == Candidates(rest, f);
      CandidatesOfCons(records[0], rest, f);
      CandidatesOfCons(records[0], records[1..], f);
      assert records == [records[0]] + records[1..];
    }
  }

  // ----- The pool -----

  lemma {:induction false} ClearedOfAppend(records: seq<Record>, x: Record, userId: string)
    ensures Cleared(records + [x], Some(userId)) == Cleared(records, Some(userId)) + (if x.userId != userId then [x] else [])
  {
    if records == [] {
      assert [] + [x] == [x] && [x][1..] == [];
    } else {
      assert (records + [x])[0] == records[0] && (records + [x])[1..] == records[1..] + [x];
      ClearedOfAppend(records[1..], x, userId);
    }
  }

  lemma {:induction false} PositiveOfAppend(s: seq<Scored>, x: Scored)
    ensures Positive(s + [x]) == Positive(s) + (if x.score > 0 then [x] else [])
  {
    if s == [] {
      PositiveOfCons(x, []);
      assert s + [x] == [x] + [];
    } else {
      PositiveOfAppend(s[1..], x);
      assert s + [x] == [s[0]] + (s[1..] + [x]);
      PositiveOfCons(s[0], s[1..] + [x]);
    }
  }

  lemma RecordsOfAppend(s: seq<Scored>, x: Scored)
    ensures RecordsOf(s + [x]) == RecordsOf(s) + [x.record]
  {
  }

  lemma KeptOfAppend(query: set<string>, s: seq<Scored>, x: Scored)
    ensures RecordsOf(Kept(query, s + [x])) == RecordsOf(Kept(query, s)) + (if x.score > 0 || query == {} then [x.record] else [])
  {
    PositiveOfAppend(s, x);
    RecordsOfAppend(Kept(query, s), x);
    assert Positive(s) + [] == Positive(s);
  }

  class SharedMemoryPool {
    const tokenize: Tokenizer
    const agentName: Option<string>
    const defaultSource: string
    const defaultScope: string
    const maxResults: int
    var records: seq<Record>

    /** A non-positive `maxResults` is a ValueError. */
    constructor (tokenize: Tokenizer, agentName: Option<string>, defaultSource: string, defaultScope: string, maxResults: int)
      requires maxResults > 0
      ensures this.tokenize == tokenize && this.maxResults == maxResults && records == []
      ensures this.agentName == agentName && this.defaultSource == defaultSource && this.defaultScope == defaultScope
    {
      this.tokenize, this.maxResults := tokenize, maxResults;
      this.agentName, this.defaultSource, this.defaultScope := agentName, defaultSource, defaultScope;
      records := [];
    }

    /** The scope of a record stored without one. */
    function DefaultScope(userId: string): MemoryScope {
      MemoryScope(defaultSource, defaultScope, agentName, map[], map["user_id" := userId])
    }

    method Store(data: string, userId: string, metadata: map<string, string>, scope: Option<MemoryScope>, memoryId: string)
        returns (stored: Record)
      modifies this`records
      ensures stored == Record(data, userId, BuildMetadata(if scope.Some? then scope.value else DefaultScope(userId), userId, metadata), memoryId)
      ensures records == old(records) + [stored]
    {
      var given := if scope.Some? then scope.value else DefaultScope(userId);
      var tags := ToMetadata(given) + metadata;
      if "user_id" !in tags {
        tags := tags["user_id" := userId];
      }
      stored := Record(data, userId, tags, memoryId);
      records := records + [stored];
    }

    method Retrieve(query: string, f: Filter, limit: Option<int>) returns (results: seq<Record>)
      ensures var max := if limit.None? then maxResults else limit.value;
              results == RecordsOf(Ranked(tokenize, records, tokenize(query), f, max))
    {
      var max := if limit.None? then maxResults else limit.value;
      if max <= 0 {
        return [];
      }
      var candidates := Matching(f);
      var scored := ScoreEach(tokenize(query), candidates);
      results := Cut(First(Sort(scored), max), tokenize(query));
    }

    method Matching(f: Filter) returns (candidates: seq<Record>)
      ensures candidates == Candidates(records, f)
    {
      candidates := [];
      var i := 0;
      while i < |records|
        invariant 0 <= i <= |records|
        invariant candidates == Candidates(records[..i], f)
      {
        CandidatesOfAppend(records[..i], records[i], f);
        assert records[..i + 1] == records[..i] + [records[i]];
        if Matches(records[i], f) {
          candidates := candidates + [records[i]];
        }
        i := i + 1;
      }
      assert records[..i] == records;
    }

    method ScoreEach(query: set<string>, candidates: seq<Record>) returns (scored: seq<Scored>)
      ensures scored == ScoredAll(tokenize, query, candidates)
    {
      scored := [];
      var i := 0;
      while i < |candidates|
        invariant 0 <= i <= |candidates|
        invariant scored == ScoredAll(tokenize, query, candidates)[..i]
      {
        scored := scored + [Scored(Score(tokenize, query, candidates[i]), i, candidates[i])];
        i := i + 1;
      }
    }

    /** The records of the cut list, without those of score zero unless the query is empty. */
    method Cut(cut: seq<Scored>, query: set<string>) returns (results: seq<Record>)
      ensures results == RecordsOf(Kept(query, cut))
    {
      results := [];
      var i := 0;
      while i < |cut|
        invariant 0 <= i <= |cut|
        invariant results == RecordsOf(Kept(query, cut[..i]))
      {
        KeptOfAppend(query, cut[..i], cut[i]);
        assert cut[..i + 1] == cut[..i] + [cut[i]];
        if cut[i].score > 0 || query == {} {
          results := results + [cut[i].record];
        }
        i := i + 1;
      }
      assert cut[..i] == cut;
    }

    method Clear(userId: Option<string>) returns (count: nat)
      modifies this`records
      ensures records == Cleared(old(records), userId) && count + |records| == old(|records|)
    {
      if userId.None? {
        count := |records|;
        records := [];
        return;
      }
      var kept, i := [], 0;
      while i < |records|
        invariant 0 <= i <= |records| && |kept| <= i && records == old(records)
        invariant kept == Cleared(records[..i], userId)
      {
        ClearedOfAppend(records[..i], records[i], userId.value);
        assert records[..i + 1] == records[..i] + [records[i]];
        if records[i].userId != userId.value {
          kept := kept + [records[i]];
        }
        i := i + 1;
      }
      assert records[..i] == records;
      count := |records| - |kept|;
      records := kept;
    }
  }
}
