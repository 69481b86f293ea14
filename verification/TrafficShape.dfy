/**
 The access-log importer's traffic shape: requests tallied per second and per endpoint,
 the duration and the average and peak rates, and the most frequent endpoints.

 A line arrives already classified: blank, malformed, or a request for an endpoint at a
 Unix second.
 */
module TrafficShape {
  datatype Endpoint = Endpoint(verb: string, path: string)

  /**
   A request line also says whether it has fields beyond the standard ones, whether a query
   string is dropped from its path, and how many path segments were normalised.
   */
  datatype Line = Blank | Malformed | Request(endpoint: Endpoint, epoch: int, extra: bool, query: bool, normalised: nat)

  datatype Entry = Entry(endpoint: Endpoint, count: nat)

  /** What the conversion warns about. */
  datatype Notes = Notes(malformed: nat, extraLines: nat, queriesDropped: nat, segments: nat)

  /** `endpoints` keeps insertion order, as the index map does. */
  datatype Tally = Tally(notes: Notes, total: nat, buckets: map<int, nat>, endpoints: seq<Entry>)

  // ------------------------------------------------------------- what there is to count

  function Requests(lines: seq<Line>): nat {
    if lines == [] then 0 else Requests(lines[..|lines| - 1]) + if lines[|lines| - 1].Request? then 1 else 0
  }

  function MalformedLines(lines: seq<Line>): nat {
    if lines == [] then 0 else MalformedLines(lines[..|lines| - 1]) + if lines[|lines| - 1].Malformed? then 1 else 0
  }

  function ExtraLines(lines: seq<Line>): nat {
    if lines == [] then 0
    else
      var last := lines[|lines| - 1];
      ExtraLines(lines[..|lines| - 1]) + if last.Request? && last.extra then 1 else 0
  }

  function QueryLines(lines: seq<Line>): nat {
    if lines == [] then 0
    else
      var last := lines[|lines| - 1];
      QueryLines(lines[..|lines| - 1]) + if last.Request? && last.query then 1 else 0
  }

  function NormalisedSegments(lines: seq<Line>): nat {
    if lines == [] then 0
    else
      var last := lines[|lines| - 1];
      NormalisedSegments(lines[..|lines| - 1]) + if last.Request? then last.normalised else 0
  }

  predicate NotesExact(lines: seq<Line>, n: Notes) {
    && n.malformed == MalformedLines(lines) && n.extraLines == ExtraLines(lines)
    && n.queriesDropped == QueryLines(lines) && n.segments == NormalisedSegments(lines)
  }

  predicate Hits(line: Line, e: Endpoint) {
    line.Request? && line.endpoint == e
  }

  function RequestsTo(lines: seq<Line>, e: Endpoint): nat {
    if lines == [] then 0 else RequestsTo(lines[..|lines| - 1], e) + if Hits(lines[|lines| - 1], e) then 1 else 0
  }

  /** Requests in the `n` seconds from `from` on. */
  function RequestsDuring(lines: seq<Line>, from: int, n: nat): nat {
    if lines == [] then 0
    else
      var last := lines[|lines| - 1];
      RequestsDuring(lines[..|lines| - 1], from, n) + if last.Request? && from <= last.epoch < from + n then 1 else 0
  }

  function RequestsAt(lines: seq<Line>, second: int): nat {
    RequestsDuring(lines, second, 1)
  }

  /** The first line that asks for the endpoint, or the number of lines. */
  function FirstSeen(lines: seq<Line>, e: Endpoint): (i: nat)
    ensures i <= |lines| && (i < |lines| ==> Hits(lines[i], e))
    ensures forall j :: 0 <= j < i ==> !Hits(lines[j], e)
  {
    if lines == [] then 0
    else
      var n := |lines| - 1;
      var i := FirstSeen(lines[..n], e);
      if i < n || Hits(lines[n], e) then i else n + 1
  }

  // ------------------------------------------------------------------------ the tally

  /** The index of an endpoint's entry, or the length. */
  function Find(entries: seq<Entry>, e: Endpoint): (k: nat)
    ensures k <= |entries| && (k < |entries| ==> entries[k].endpoint == e)
    ensures forall i :: 0 <= i < k ==> entries[i].endpoint != e
  {
    if entries == [] then 0
    else if entries[0].endpoint == e then 0
    else
      var k := Find(entries[1..], e);
      assert forall i :: 0 < i <= k ==> entries[i] == entries[1..][i - 1] || i == |entries|;
      k + 1
  }

  /** Count one more request for the endpoint, adding it at the end if new. */
  function Bump(entries: seq<Entry>, e: Endpoint): seq<Entry> {
    var k := Find(entries, e);
    if k < |entries| then entries[k := Entry(e, entries[k].count + 1)] else entries + [Entry(e, 1)]
  }

  function Add(t: Tally, line: Line): Tally {
    match line
    case Blank => t
    case Malformed => t.(notes := t.notes.(malformed := t.notes.malformed + 1))
    case Request(e, s, extra, query, normalised) =>
      t.(notes := t.notes.(
           extraLines := t.notes.extraLines + if extra then 1 else 0,
           queriesDropped := t.notes.queriesDropped + if query then 1 else 0,
           segments := t.notes.segments + normalised),
         total := t.total + 1,
         buckets := t.buckets[s := (if s in t.buckets then t.buckets[s] else 0) + 1],
         endpoints := Bump(t.endpoints, e))
  }

  function SumCounts(entries: seq<Entry>): nat {
    if entries == [] then 0 else SumCounts(entries[..|entries| - 1]) + entries[|entries| - 1].count
  }

  ghost predicate BucketsExact(lines: seq<Line>, buckets: map<int, nat>) {
    forall t :: RequestsAt(lines, t) == (if t in buckets then buckets[t] else 0) && (t in buckets ==> buckets[t] > 0)
  }

  ghost predicate Listed(lines: seq<Line>, entries: seq<Entry>) {
    forall e :: Find(entries, e) == |entries| <==> RequestsTo(lines, e) == 0
  }

  /** One entry with the exact count for every endpoint, in the order in which they first appear. */
  ghost predicate EndpointsExact(lines: seq<Line>, entries: seq<Entry>) {
    && (forall k :: 0 <= k < |entries| ==> entries[k].count == RequestsTo(lines, entries[k].endpoint) > 0)
    && Listed(lines, entries)
    && (forall j, k :: 0 <= j < k < |entries| ==>
      FirstSeen(lines, entries[j].endpoint) < FirstSeen(lines, entries[k].endpoint))
  }

  ghost predicate TallyExact(lines: seq<Line>, t: Tally) {
    && t.total == Requests(lines) && NotesExact(lines, t.notes)
    && BucketsExact(lines, t.buckets)
    && EndpointsExact(lines, t.endpoints)
    && SumCounts(t.endpoints) == t.total
  }

  lemma BucketsStep(lines: seq<Line>, line: Line, t: Tally)
    requires BucketsExact(lines, t.buckets)
    ensures BucketsExact(lines + [line], Add(t, line).buckets)
  {
    assert (lines + [line])[..|lines|] == lines;
    var b := Add(t, line).buckets;
    forall s ensures RequestsAt(lines + [line], s) == (if s in b then b[s] else 0) && (s in b ==> b[s] > 0) {
      assert RequestsAt(lines, s) == if s in t.buckets then t.buckets[s] else 0;
    }
  }

  lemma {:induction false} SumUpdate(entries: seq<Entry>, k: nat, x: Entry)
    requires k < |entries|
    ensures SumCounts(entries[k := x]) == SumCounts(entries) - entries[k].count + x.count
    decreases |entries|
  {
    var n := |entries| - 1;
    if k < n {
      assert entries[k := x][..n] == entries[..n][k := x];
      SumUpdate(entries[..n], k, x);
    } else {
      assert entries[k := x][..n] == entries[..n];
    }
  }

  lemma BumpSum(entries: seq<Entry>, e: Endpoint)
    ensures SumCounts(Bump(entries, e)) == SumCounts(entries) + 1
  {
    var k := Find(entries, e);
    if k < |entries| {
      SumUpdate(entries, k, Entry(e, entries[k].count + 1));
    } else {
      assert (entries + [Entry(e, 1)])[..|entries|] == entries;
    }
  }

  /** Appending a line moves no first appearance. */
  lemma FirstSeenStep(lines: seq<Line>, line: Line, e: Endpoint)
    ensures RequestsTo(lines + [line], e) == RequestsTo(lines, e) + if Hits(line, e) then 1 else 0
    ensures FirstSeen(lines, e) < |lines| ==> FirstSeen(lines + [line], e) == FirstSeen(lines, e)
    ensures FirstSeen(lines, e) == |lines| && Hits(line, e) ==> FirstSeen(lines + [line], e) == |lines|
  {
    assert (lines + [line])[..|lines|] == lines;
  }

  lemma {:induction false} SeenMeansCounted(lines: seq<Line>, e: Endpoint)
    ensures FirstSeen(lines, e) < |lines| <==> RequestsTo(lines, e) > 0
  {
    if lines == [] {
    } else {
      SeenMeansCounted(lines[..|lines| - 1], e);
    }
  }

  /** What looking an endpoint up gives after another has been bumped. */
  lemma FindBump(entries: seq<Entry>, e: Endpoint, x: Endpoint)
    ensures Find(Bump(entries, e), x) == |Bump(entries, e)| <==> x != e && Find(entries, x) == |entries|
  {
    var b := Bump(entries, e);
    var k := Find(entries, e);
    if x == e {
      assert b[if k < |entries| then k else |entries|].endpoint == e;
    } else if Find(entries, x) < |entries| {
      assert b[Find(entries, x)].endpoint == x;
    } else {
      assert forall i :: 0 <= i < |entries| ==> b[i].endpoint == entries[i].endpoint;
    }
  }

  lemma EndpointsStep(lines: seq<Line>, line: Line, entries: seq<Entry>)
    requires EndpointsExact(lines, entries) && line.Request?
    ensures EndpointsExact(lines + [line], Bump(entries, line.endpoint))
  {
    var e := line.endpoint;
    var lines' := lines + [line];
    var b := Bump(entries, e);
    var k := Find(entries, e);
    forall x ensures Find(b, x) == |b| <==> RequestsTo(lines', x) == 0 {
      FindBump(entries, e, x);
      FirstSeenStep(lines, line, x);
      assert Find(entries, x) == |entries| <==> RequestsTo(lines, x) == 0;
    }
    assert k == |entries| <==> RequestsTo(lines, e) == 0;
    forall i | 0 <= i < |b|
      ensures b[i].count == RequestsTo(lines', b[i].endpoint) > 0
      ensures FirstSeen(lines', b[i].endpoint) == if i < |entries| then FirstSeen(lines, entries[i].endpoint) else |lines|
      ensures i < |entries| ==> FirstSeen(lines', b[i].endpoint) < |lines|
    {
      SeenMeansCounted(lines, b[i].endpoint);
      FirstSeenStep(lines, line, b[i].endpoint);
    }
  }

  lemma NotRequested(lines: seq<Line>, line: Line, entries: seq<Entry>)
    requires EndpointsExact(lines, entries) && !line.Request?
    ensures EndpointsExact(lines + [line], entries)
  {
    forall e
      ensures RequestsTo(lines + [line], e) == RequestsTo(lines, e)
      ensures FirstSeen(lines, e) < |lines| ==> FirstSeen(lines + [line], e) == FirstSeen(lines, e)
    {
      FirstSeenStep(lines, line, e);
    }
    forall k | 0 <= k < |entries| ensures FirstSeen(lines, entries[k].endpoint) < |lines| {
      SeenMeansCounted(lines, entries[k].endpoint);
    }
  }

  lemma Appended(lines: seq<Line>, line: Line)
    ensures Requests(lines + [line]) == Requests(lines) + if line.Request? then 1 else 0
  {
    assert (lines + [line])[..|lines|] == lines;
  }

  lemma NotesStep(lines: seq<Line>, line: Line, t: Tally)
    requires NotesExact(lines, t.notes)
    ensures NotesExact(lines + [line], Add(t, line).notes)
  {
    assert (lines + [line])[..|lines|] == lines;
  }

  lemma TallyStep(lines: seq<Line>, line: Line, t: Tally)
    requires TallyExact(lines, t)
    ensures TallyExact(lines + [line], Add(t, line))
  {
    Appended(lines, line);
    NotesStep(lines, line, t);
    BucketsStep(lines, line, t);
    if line.Request? {
      EndpointsStep(lines, line, t.endpoints);
      BumpSum(t.endpoints, line.endpoint);
    } else {
      NotRequested(lines, line, t.endpoints);
    }
  }

  // ------------------------------------------------------------------- sums of buckets

  /** Seconds counted one at a time. */
  lemma {:induction false} DuringStep(lines: seq<Line>, from: int, n: nat)
    ensures RequestsDuring(lines, from, n + 1) == RequestsDuring(lines, from, n) + RequestsAt(lines, from + n)
  {
    if lines == [] {
    } else {
      DuringStep(lines[..|lines| - 1], from, n);
    }
  }

  lemma {:induction false} NothingDuring(lines: seq<Line>, from: int)
    ensures RequestsDuring(lines, from, 0) == 0
  {
    if lines == [] {
    } else {
      NothingDuring(lines[..|lines| - 1], from);
    }
  }

  lemma {:induction false} AllDuring(lines: seq<Line>, from: int, n: nat)
    requires forall i :: 0 <= i < |lines| && lines[i].Request? ==> from <= lines[i].epoch < from + n
    ensures RequestsDuring(lines, from, n) == Requests(lines)
  {
    if lines == [] {
    } else {
      AllDuring(lines[..|lines| - 1], from, n);
    }
  }

  lemma {:induction false} AtLeastOne(lines: seq<Line>, i: nat)
    requires i < |lines| && lines[i].Request?
    ensures RequestsAt(lines, lines[i].epoch) > 0 && Requests(lines) > 0
  {
    if i == |lines| - 1 {
    } else {
      AtLeastOne(lines[..|lines| - 1], i);
    }
  }

  /** The buckets of the `n` seconds from `from` on, added up. */
  function SumRange(buckets: map<int, nat>, from: int, n: nat): nat {
    if n == 0 then 0
    else SumRange(buckets, from, n - 1) + if from + n - 1 in buckets then buckets[from + n - 1] else 0
  }

  predicate Covers(buckets: map<int, nat>, from: int, n: nat) {
    forall t :: t in buckets ==> from <= t < from + n
  }

  lemma {:induction false} SumRangeCounts(lines: seq<Line>, buckets: map<int, nat>, from: int, n: nat)
    requires BucketsExact(lines, buckets)
    ensures SumRange(buckets, from, n) == RequestsDuring(lines, from, n)
  {
    if n == 0 {
      NothingDuring(lines, from);
    } else {
      SumRangeCounts(lines, buckets, from, n - 1);
      DuringStep(lines, from, n - 1);
      assert RequestsAt(lines, from + (n - 1)) == if from + n - 1 in buckets then buckets[from + n - 1] else 0;
    }
  }

  /** Over any stretch of time that covers them, the buckets add up to the total. */
  lemma BucketsSumToTotal(lines: seq<Line>, t: Tally, from: int, n: nat)
    requires TallyExact(lines, t) && Covers(t.buckets, from, n)
    ensures SumRange(t.buckets, from, n) == t.total == SumCounts(t.endpoints)
  {
    SumRangeCounts(lines, t.buckets, from, n);
    forall i | 0 <= i < |lines| && lines[i].Request? ensures from <= lines[i].epoch < from + n {
      AtLeastOne(lines, i);
      assert lines[i].epoch in t.buckets;
    }
    AllDuring(lines, from, n);
  }

  /** The counting loop: nothing is lost or counted twice, and endpoints stay in first-seen order. */
  method Count(lines: seq<Line>) returns (t: Tally)
    ensures TallyExact(lines, t)
    ensures forall from, n: nat :: Covers(t.buckets, from, n) ==> SumRange(t.buckets, from, n) == t.total
  {
    t := Tally(Notes(0, 0, 0, 0), 0, map[], []);
    for i := 0 to |lines|
      invariant TallyExact(lines[..i], t)
    {
      TallyStep(lines[..i], lines[i], t);
      assert lines[..i] + [lines[i]] == lines[..i + 1];
      t := Add(t, lines[i]);
    }
    assert lines[..|lines|] == lines;
    forall from, n: nat | Covers(t.buckets, from, n) ensures SumRange(t.buckets, from, n) == t.total {
      BucketsSumToTotal(lines, t, from, n);
    }
  }

  // ------------------------------------------------------------------------- ranking

  /** The library's stable sort by descending count, as insertion behind the ones not smaller. */
  function Insert(ranked: seq<Entry>, x: Entry): seq<Entry> {
    if ranked == [] || ranked[0].count < x.count then [x] + ranked else [ranked[0]] + Insert(ranked[1..], x)
  }

  function Ranked(entries: seq<Entry>): seq<Entry> {
    if entries == [] then [] else Insert(Ranked(entries[..|entries| - 1]), entries[|entries| - 1])
  }

  /** More requests, or as many and seen earlier. */
  predicate Outranks(lines: seq<Line>, x: Entry, y: Entry) {
    x.count > y.count || (x.count == y.count && FirstSeen(lines, x.endpoint) < FirstSeen(lines, y.endpoint))
  }

  predicate InRankOrder(lines: seq<Line>, ranked: seq<Entry>) {
    forall j, k :: 0 <= j < k < |ranked| ==> Outranks(lines, ranked[j], ranked[k])
  }

  lemma {:induction false} InsertPermutes(ranked: seq<Entry>, x: Entry)
    ensures multiset(Insert(ranked, x)) == multiset(ranked) + multiset{x}
  {
    if ranked == [] || ranked[0].count < x.count {
    } else {
      assert ranked == [ranked[0]] + ranked[1..];
      InsertPermutes(ranked[1..], x);
    }
  }

  lemma FrontIsInOrder(lines: seq<Line>, x: Entry, tail: seq<Entry>)
    requires InRankOrder(lines, tail) && forall y :: y in tail ==> Outranks(lines, x, y)
    ensures InRankOrder(lines, [x] + tail)
  {
    var r := [x] + tail;
    forall j, k | 0 <= j < k < |r| ensures Outranks(lines, r[j], r[k]) {
      assert r[k] == tail[k - 1] && (j > 0 ==> r[j] == tail[j - 1]);
    }
  }

  lemma {:induction false} InsertKeepsOrder(lines: seq<Line>, ranked: seq<Entry>, x: Entry)
    requires InRankOrder(lines, ranked)
    requires forall y :: y in ranked ==> FirstSeen(lines, y.endpoint) < FirstSeen(lines, x.endpoint)
    ensures InRankOrder(lines, Insert(ranked, x))
  {
    if ranked != [] && ranked[0].count >= x.count {
      var tail := Insert(ranked[1..], x);
      InsertKeepsOrder(lines, ranked[1..], x);
      InsertPermutes(ranked[1..], x);
      forall y | y in tail ensures Outranks(lines, ranked[0], y) {
        assert y in multiset(tail);
        assert y == x || y in ranked[1..];
      }
      FrontIsInOrder(lines, ranked[0], tail);
    } else {
      forall y | y in ranked ensures Outranks(lines, x, y) {
        assert y == ranked[0] || Outranks(lines, ranked[0], y);
      }
      FrontIsInOrder(lines, x, ranked);
    }
  }

  /** Sorting is a permutation into rank order: ties keep the order of first appearance. */
  lemma {:induction false} RankedIsInOrder(lines: seq<Line>, entries: seq<Entry>)
    requires forall j, k :: 0 <= j < k < |entries| ==>
      FirstSeen(lines, entries[j].endpoint) < FirstSeen(lines, entries[k].endpoint)
    ensures multiset(Ranked(entries)) == multiset(entries)
    ensures InRankOrder(lines, Ranked(entries))
  {
    if entries == [] {
    } else {
      var n := |entries| - 1;
      var front := Ranked(entries[..n]);
      RankedIsInOrder(lines, entries[..n]);
      assert entries == entries[..n] + [entries[n]];
      forall y | y in front ensures FirstSeen(lines, y.endpoint) < FirstSeen(lines, entries[n].endpoint) {
        assert y in multiset(front);
        assert y in entries[..n];
      }
      InsertPermutes(front, entries[n]);
      InsertKeepsOrder(lines, front, entries[n]);
    }
  }

  /** Two rank-ordered permutations of one list are the same list. */
  lemma {:induction false} RankOrderIsUnique(lines: seq<Line>, a: seq<Entry>, b: seq<Entry>)
    requires multiset(a) == multiset(b) && InRankOrder(lines, a) && InRankOrder(lines, b)
    ensures a == b
  {
    SameMembers(a, b);
    if a == [] {
    } else {
      assert a[0] in b && b[0] in a;
      assert a[0] == b[0];
      assert a == [a[0]] + a[1..] && b == [b[0]] + b[1..];
      assert multiset(a[1..]) == multiset(a) - multiset{a[0]} && multiset(b[1..]) == multiset(b) - multiset{b[0]};
      RankOrderIsUnique(lines, a[1..], b[1..]);
    }
  }

  /** Whichever stable sort runs, its result is this ranking. */
  lemma AnyStableSortAgrees(lines: seq<Line>, entries: seq<Entry>, sorted: seq<Entry>)
    requires EndpointsExact(lines, entries)
    requires multiset(sorted) == multiset(entries) && InRankOrder(lines, sorted)
    ensures sorted == Ranked(entries)
  {
    RankedIsInOrder(lines, entries);
    RankOrderIsUnique(lines, sorted, Ranked(entries));
  }

  lemma SameMembers(a: seq<Entry>, b: seq<Entry>)
    requires multiset(a) == multiset(b)
    ensures |a| == |b| && forall x :: x in a <==> x in b
  {
    assert |multiset(a)| == |a| && |multiset(b)| == |b|;
    assert forall x :: x in a <==> x in multiset(a);
    assert forall x :: x in b <==> x in multiset(b);
  }

  // ------------------------------------------------------- sums and numbers of endpoints

  lemma {:induction false} SumJoin(a: seq<Entry>, b: seq<Entry>)
    ensures SumCounts(a + b) == SumCounts(a) + SumCounts(b)
  {
    if b == [] {
      assert a + b == a;
    } else {
      assert (a + b)[..|a + b| - 1] == a + b[..|b| - 1];
      SumJoin(a, b[..|b| - 1]);
    }
  }

  lemma SumOne(x: Entry)
    ensures SumCounts([x]) == x.count
  {
    assert [x][..0] == [];
  }

  lemma {:induction false} InsertSum(ranked: seq<Entry>, x: Entry)
    ensures SumCounts(Insert(ranked, x)) == SumCounts(ranked) + x.count
  {
    SumOne(x);
    if ranked == [] || ranked[0].count < x.count {
      SumJoin([x], ranked);
    } else {
      InsertSum(ranked[1..], x);
      SumJoin([ranked[0]], Insert(ranked[1..], x));
      SumJoin([ranked[0]], ranked[1..]);
      assert ranked == [ranked[0]] + ranked[1..];
    }
  }

  lemma {:induction false} RankedSum(entries: seq<Entry>)
    ensures SumCounts(Ranked(entries)) == SumCounts(entries)
  {
    if entries == [] {
    } else {
      RankedSum(entries[..|entries| - 1]);
      InsertSum(Ranked(entries[..|entries| - 1]), entries[|entries| - 1]);
    }
  }

  lemma {:induction false} PositiveSum(entries: seq<Entry>)
    requires forall k :: 0 <= k < |entries| ==> entries[k].count > 0
    ensures SumCounts(entries) == 0 <==> entries == []
  {
    if entries == [] {
    } else {
      PositiveSum(entries[..|entries| - 1]);
    }
  }

  /** Keeping a prefix keeps at most the sum, and all of it only by keeping everything. */
  lemma KeptSum(ranked: seq<Entry>, topN: nat)
    requires forall k :: 0 <= k < |ranked| ==> ranked[k].count > 0
    ensures SumCounts(Kept(ranked, topN)) <= SumCounts(ranked)
    ensures SumCounts(Kept(ranked, topN)) == SumCounts(ranked) <==> |Kept(ranked, topN)| == |ranked|
  {
    var n := |Kept(ranked, topN)|;
    assert ranked == ranked[..n] + ranked[n..] && Kept(ranked, topN) == ranked[..n];
    SumJoin(ranked[..n], ranked[n..]);
    PositiveSum(ranked[n..]);
  }

  /** The endpoints that occur. */
  function Endpoints(lines: seq<Line>): set<Endpoint> {
    if lines == [] then {}
    else
      var last := lines[|lines| - 1];
      Endpoints(lines[..|lines| - 1]) + if last.Request? then {last.endpoint} else {}
  }

  lemma {:induction false} EndpointsAreCounted(lines: seq<Line>, e: Endpoint)
    ensures e in Endpoints(lines) <==> RequestsTo(lines, e) > 0
  {
    if lines == [] {
    } else {
      EndpointsAreCounted(lines[..|lines| - 1], e);
    }
  }

  function Names(entries: seq<Entry>): set<Endpoint> {
    if entries == [] then {} else Names(entries[..|entries| - 1]) + {entries[|entries| - 1].endpoint}
  }

  lemma {:induction false} NamesAreMembers(entries: seq<Entry>, e: Endpoint)
    ensures e in Names(entries) <==> exists k :: 0 <= k < |entries| && entries[k].endpoint == e
  {
    if entries == [] {
    } else {
      var n := |entries| - 1;
      NamesAreMembers(entries[..n], e);
      if e in Names(entries[..n]) {
        var k :| 0 <= k < n && entries[..n][k].endpoint == e;
        assert entries[k].endpoint == e;
      } else if e == entries[n].endpoint {
        assert entries[n].endpoint == e;
      } else {
        forall k | 0 <= k < |entries| ensures entries[k].endpoint != e {
          assert k < n ==> entries[..n][k] == entries[k];
        }
      }
    }
  }

  lemma {:induction false} DistinctNames(entries: seq<Entry>)
    requires forall j, k :: 0 <= j < k < |entries| ==> entries[j].endpoint != entries[k].endpoint
    ensures |Names(entries)| == |entries|
  {
    if entries == [] {
    } else {
      var n := |entries| - 1;
      DistinctNames(entries[..n]);
      NamesAreMembers(entries[..n], entries[n].endpoint);
    }
  }

  /** The table has as many entries as the log has endpoints. */
  lemma OneEntryPerEndpoint(lines: seq<Line>, entries: seq<Entry>)
    requires EndpointsExact(lines, entries)
    ensures |entries| == |Endpoints(lines)|
  {
    forall j, k | 0 <= j < k < |entries| ensures entries[j].endpoint != entries[k].endpoint {
      assert FirstSeen(lines, entries[j].endpoint) < FirstSeen(lines, entries[k].endpoint);
    }
    DistinctNames(entries);
    forall e ensures e in Names(entries) <==> e in Endpoints(lines) {
      NamesAreMembers(entries, e);
      EndpointsAreCounted(lines, e);
      assert Find(entries, e) == |entries| <==> RequestsTo(lines, e) == 0;
    }
    assert Names(entries) == Endpoints(lines);
  }

  // --------------------------------------------------------------------------- shape

  lemma {:induction false} DuringIsBounded(lines: seq<Line>, from: int, n: nat, peak: nat)
    requires forall t :: RequestsAt(lines, t) <= peak
    ensures RequestsDuring(lines, from, n) <= n * peak
  {
    if n == 0 {
      NothingDuring(lines, from);
    } else {
      DuringIsBounded(lines, from, n - 1, peak);
      DuringStep(lines, from, n - 1);
      assert RequestsAt(lines, from + (n - 1)) <= peak;
      assert (n - 1) * peak + peak == n * peak;
    }
  }

  lemma {:induction false} SomeRequestAt(lines: seq<Line>, t: int) returns (i: nat)
    requires RequestsAt(lines, t) > 0
    ensures i < |lines| && lines[i].Request? && lines[i].epoch == t
  {
    var last := lines[|lines| - 1];
    if last.Request? && last.epoch == t {
      i := |lines| - 1;
    } else {
      i := SomeRequestAt(lines[..|lines| - 1], t);
    }
  }

  datatype Shape = Shape(
    first: int,
    last: int,
    duration: nat,
    peak: nat,
    total: nat,
    average: real,
    rate: real,
    endpoints: nat,
    kept: seq<Entry>,
    keptRequests: nat)

  datatype Conversion = Converted(shape: Shape, notes: Notes) | NoRequests(malformed: nat)

  lemma Inhabited<T>(s: set<T>) returns (x: T)
    requires s != {}
    ensures x in s
  {
    x :| x in s;
  }

  /** The smallest and largest second and the largest count. */
  method Extremes(buckets: map<int, nat>) returns (first: int, last: int, peak: nat)
    requires buckets.Keys != {}
    ensures first in buckets && last in buckets && forall t :: t in buckets ==> first <= t <= last && buckets[t] <= peak
    ensures exists t :: t in buckets && buckets[t] == peak
  {
    ghost var some := Inhabited(buckets.Keys);
    var start :| start in buckets.Keys;
    first, last, peak := start, start, buckets[start];
    var rest := buckets.Keys - {start};
    while rest != {}
      invariant rest <= buckets.Keys && first in buckets && last in buckets
      invariant forall t :: t in buckets && t !in rest ==> first <= t <= last && buckets[t] <= peak
      invariant exists t :: t in buckets && buckets[t] == peak
      decreases |rest|
    {
      ghost var next := Inhabited(rest);
      var t :| t in rest;
      first := if t < first then t else first;
      last := if t > last then t else last;
      peak := if buckets[t] > peak then buckets[t] else peak;
      rest := rest - {t};
    }
  }

  function Average(total: nat, duration: nat): real
    requires duration > 0
  {
    total as real / duration as real
  }

  /** Rounded to hundredths, and never zero. */
  function RateOf(average: real): real {
    var x := (if average > 0.01 then average else 0.01) * 100.0;
    (x + 0.5).Floor as real / 100.0
  }

  /** The first and the last second with a request, and the most requests in one second. */
  ghost predicate Spans(lines: seq<Line>, first: int, last: int, peak: nat) {
    && (forall i :: 0 <= i < |lines| && lines[i].Request? ==> first <= lines[i].epoch <= last)
    && RequestsAt(lines, first) > 0 && RequestsAt(lines, last) > 0
    && (forall t :: RequestsAt(lines, t) <= peak)
    && (exists t :: RequestsAt(lines, t) == peak)
  }

  predicate Dropped(kept: seq<Entry>, e: Endpoint) {
    forall k :: 0 <= k < |kept| ==> kept[k].endpoint != e
  }

  function ExactEntry(lines: seq<Line>, e: Endpoint): Entry {
    Entry(e, RequestsTo(lines, e))
  }

  /** An endpoint that is dropped is outranked by every kept one, and only the cap drops it. */
  ghost predicate DropsOnlyLower(lines: seq<Line>, cap: nat, kept: seq<Entry>) {
    forall i :: 0 <= i < |lines| && lines[i].Request? && Dropped(kept, lines[i].endpoint) ==>
      |kept| == cap && forall k :: 0 <= k < |kept| ==> Outranks(lines, kept[k], ExactEntry(lines, lines[i].endpoint))
  }

  /** The kept endpoints are the highest ranked, each with its exact count. */
  ghost predicate KeepsTheTop(lines: seq<Line>, cap: nat, kept: seq<Entry>) {
    && 0 < |kept| <= cap
    && InRankOrder(lines, kept)
    && (forall k :: 0 <= k < |kept| ==> kept[k] == ExactEntry(lines, kept[k].endpoint) && kept[k].count > 0)
    && DropsOnlyLower(lines, cap, kept)
  }

  function Cap(topN: nat): nat {
    if topN > 1 then topN else 1
  }

  function Kept(ranked: seq<Entry>, topN: nat): seq<Entry> {
    if Cap(topN) < |ranked| then ranked[..Cap(topN)] else ranked
  }

  /** The shape describes exactly the requests in the log. */
  ghost predicate Describes(lines: seq<Line>, topN: nat, s: Shape) {
    && s.total == Requests(lines) > 0
    && Spans(lines, s.first, s.last, s.peak)
    && s.duration == s.last - s.first + 1
    && s.duration > 0 && s.average == Average(s.total, s.duration)
    && s.rate == RateOf(s.average)
    && KeepsTheTop(lines, Cap(topN), s.kept)
    && s.endpoints == |Endpoints(lines)|
    && s.keptRequests == SumCounts(s.kept) <= s.total
    && (s.keptRequests == s.total <==> |s.kept| == s.endpoints)
  }

  lemma RequestIsListed(lines: seq<Line>, entries: seq<Entry>, i: nat)
    requires EndpointsExact(lines, entries) && i < |lines| && lines[i].Request?
    ensures ExactEntry(lines, lines[i].endpoint) in entries
  {
    var e := lines[i].endpoint;
    assert FirstSeen(lines, e) <= i by {
      assert Hits(lines[i], e);
    }
    SeenMeansCounted(lines, e);
    var k := Find(entries, e);
    assert k < |entries| && entries[k].endpoint == e;
    assert entries[k] == ExactEntry(lines, e);
  }

  lemma PrefixOutranks(lines: seq<Line>, ranked: seq<Entry>, topN: nat, x: Entry)
    requires InRankOrder(lines, ranked) && x in ranked && Dropped(Kept(ranked, topN), x.endpoint)
    ensures var kept := Kept(ranked, topN);
      |kept| == Cap(topN) && forall k :: 0 <= k < |kept| ==> Outranks(lines, kept[k], x)
  {
    var kept := Kept(ranked, topN);
    var j :| 0 <= j < |ranked| && ranked[j] == x;
    assert forall k :: 0 <= k < |kept| ==> kept[k] == ranked[k];
  }

  lemma TopIsKept(lines: seq<Line>, topN: nat, entries: seq<Entry>)
    requires EndpointsExact(lines, entries) && entries != []
    ensures KeepsTheTop(lines, Cap(topN), Kept(Ranked(entries), topN))
  {
    var ranked := Ranked(entries);
    var kept := Kept(ranked, topN);
    RankedIsInOrder(lines, entries);
    SameMembers(ranked, entries);
    forall k | 0 <= k < |kept| ensures kept[k] == ExactEntry(lines, kept[k].endpoint) && kept[k].count > 0 {
      assert kept[k] == ranked[k] && ranked[k] in entries;
    }
    forall i | 0 <= i < |lines| && lines[i].Request? && Dropped(kept, lines[i].endpoint)
      ensures |kept| == Cap(topN)
      ensures forall k :: 0 <= k < |kept| ==> Outranks(lines, kept[k], ExactEntry(lines, lines[i].endpoint))
    {
      RequestIsListed(lines, entries, i);
      PrefixOutranks(lines, ranked, topN, ExactEntry(lines, lines[i].endpoint));
    }
  }

  lemma {:induction false} RequestsNeedALine(lines: seq<Line>) returns (i: nat)
    requires Requests(lines) > 0
    ensures i < |lines| && lines[i].Request?
  {
    if lines[|lines| - 1].Request? {
      i := |lines| - 1;
    } else {
      i := RequestsNeedALine(lines[..|lines| - 1]);
    }
  }

  lemma SpanOfBuckets(lines: seq<Line>, buckets: map<int, nat>, first: int, last: int, peak: nat)
    requires BucketsExact(lines, buckets)
    requires first in buckets && last in buckets && forall t :: t in buckets ==> first <= t <= last && 0 < buckets[t] <= peak
    requires exists t :: t in buckets && buckets[t] == peak
    ensures Spans(lines, first, last, peak)
  {
    forall i | 0 <= i < |lines| && lines[i].Request? ensures first <= lines[i].epoch <= last {
      AtLeastOne(lines, i);
    }
    var t :| t in buckets && buckets[t] == peak;
    assert RequestsAt(lines, t) == peak;
  }

  lemma SpanIsOrdered(lines: seq<Line>, first: int, last: int, peak: nat)
    requires Spans(lines, first, last, peak)
    ensures first <= last
  {
    var i := SomeRequestAt(lines, first);
  }

  /** Kept requests are at most the total, and all of them exactly when no endpoint is dropped. */
  lemma KeptRequests(lines: seq<Line>, topN: nat, t: Tally)
    requires TallyExact(lines, t)
    ensures var ranked := Ranked(t.endpoints);
      var kept := Kept(ranked, topN);
      && |ranked| == |Endpoints(lines)| && SumCounts(kept) <= t.total
      && (SumCounts(kept) == t.total <==> |kept| == |Endpoints(lines)|)
  {
    var ranked := Ranked(t.endpoints);
    OneEntryPerEndpoint(lines, t.endpoints);
    RankedIsInOrder(lines, t.endpoints);
    SameMembers(ranked, t.endpoints);
    RankedSum(t.endpoints);
    forall k | 0 <= k < |ranked| ensures ranked[k].count > 0 {
      assert ranked[k] in t.endpoints;
    }
    KeptSum(ranked, topN);
  }

  /** The whole conversion: an error without a single request, otherwise the exact shape. */
  method Convert(lines: seq<Line>, topN: nat) returns (c: Conversion)
    ensures c.NoRequests? <==> Requests(lines) == 0
    ensures c.NoRequests? ==> c.malformed == MalformedLines(lines)
    ensures c.Converted? ==> Describes(lines, topN, c.shape) && NotesExact(lines, c.notes)
  {
    var t := Count(lines);
    if t.total == 0 {
      return NoRequests(t.notes.malformed);
    }
    ghost var some := RequestsNeedALine(lines);
    AtLeastOne(lines, some);
    RequestIsListed(lines, t.endpoints, some);
    assert lines[some].epoch in t.buckets.Keys;
    var first, last, peak := Extremes(t.buckets);
    SpanOfBuckets(lines, t.buckets, first, last, peak);
    TopIsKept(lines, topN, t.endpoints);
    var duration := last - first + 1;
    SpanIsOrdered(lines, first, last, peak);
    var average := Average(t.total, duration);
    KeptRequests(lines, topN, t);
    var ranked := Ranked(t.endpoints);
    var kept := Kept(ranked, topN);
    var keptRequests := SumKept(kept);
    c := Converted(
      Shape(first, last, duration, peak, t.total, average, RateOf(average), |ranked|, kept, keptRequests), t.notes);
  }

  method SumKept(kept: seq<Entry>) returns (sum: nat)
    ensures sum == SumCounts(kept)
  {
    sum := 0;
    for k := 0 to |kept|
      invariant sum == SumCounts(kept[..k])
    {
      assert kept[..k + 1][..k] == kept[..k];
      sum := sum + kept[k].count;
    }
    assert kept[..|kept|] == kept;
  }

  lemma {:induction false} AtMostTotal(lines: seq<Line>, t: int)
    ensures RequestsAt(lines, t) <= Requests(lines)
  {
    if lines == [] {
    } else {
      AtMostTotal(lines[..|lines| - 1], t);
    }
  }

  lemma SpanHoldsTheLog(lines: seq<Line>, first: int, last: int, duration: nat, peak: nat)
    requires Spans(lines, first, last, peak) && duration == last - first + 1
    ensures Requests(lines) <= duration * peak
    ensures 1 <= peak <= Requests(lines)
  {
    AllDuring(lines, first, duration);
    DuringIsBounded(lines, first, duration, peak);
    var t :| RequestsAt(lines, t) == peak;
    AtMostTotal(lines, t);
    assert RequestsAt(lines, first) <= peak;
  }

  lemma AverageAtMost(total: nat, duration: nat, peak: nat)
    requires duration > 0 && total <= duration * peak
    ensures Average(total, duration) <= peak as real
  {
    var d, p, t := duration as real, peak as real, total as real;
    assert t <= d * p;
    assert t / d * d == t;
  }

  /** The peak covers the log: no average exceeds it, and the whole log fits in peak times duration. */
  lemma AverageIsAtMostPeak(lines: seq<Line>, topN: nat, s: Shape)
    requires Describes(lines, topN, s)
    ensures s.total <= s.duration * s.peak
    ensures 1 <= s.peak <= s.total
    ensures s.average <= s.peak as real
  {
    SpanHoldsTheLog(lines, s.first, s.last, s.duration, s.peak);
    AverageAtMost(s.total, s.duration, s.peak);
  }

  lemma RateRounds(average: real, peak: nat)
    requires average <= peak as real && peak >= 1
    ensures 0.01 <= RateOf(average) <= peak as real
    ensures average <= 0.01 ==> RateOf(average) == 0.01
    ensures average >= 0.01 ==> -0.005 <= RateOf(average) - average <= 0.005
  {
    var x := (if average > 0.01 then average else 0.01) * 100.0;
    var f := (x + 0.5).Floor;
    assert f as real <= x + 0.5 < f as real + 1.0;
    assert 1.0 <= x <= (100 * peak) as real;
    assert f <= 100 * peak;
  }

  /**
   The arrival rate of a converted log never exceeds its peak. It is the average to the nearest
   hundredth, and one hundredth for any average up to that.
   */
  lemma RateFollowsTheLog(lines: seq<Line>, topN: nat, s: Shape)
    requires Describes(lines, topN, s)
    ensures 0.01 <= s.rate <= s.peak as real
    ensures s.average <= 0.01 ==> s.rate == 0.01
    ensures s.average >= 0.01 ==> -0.005 <= s.rate - s.average <= 0.005
  {
    AverageIsAtMostPeak(lines, topN, s);
    RateRounds(s.average, s.peak);
  }
}
