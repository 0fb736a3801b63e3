/** The records the filter scans, the per-record results it emits
    (`RegexQueryResult`), how one pass over the records collects them, and the
    sort applied before they are published. */
module QueryResults {
  import opened Values

  /** One row of the contacts cursor: display name and number, both nullable. */
  datatype Record = Record(name: Option<string>, number: Option<string>)

  /** A `RegexQueryResult`: the record's cursor position, the name span
      `[start, end)` and the number span set by `setNumberPlace` (`None` while
      it has never been set and keeps the class's default). */
  datatype QueryResult = QueryResult(position: nat, start: int, end: int, numberPlace: Option<Span>)

  /** The results of one pass, in cursor order: the emitted result of every
      record that has one. `hits[i]` is what record `i` yields. */
  function Present(hits: seq<Option<QueryResult>>): seq<QueryResult> {
    if hits == [] then []
    else Present(hits[..|hits| - 1]) + (match hits[|hits| - 1] case Some(r) => [r] case None => [])
  }

  /** Every hit carries its own record's position. */
  ghost predicate PositionsTagged(hits: seq<Option<QueryResult>>) {
    forall i :: 0 <= i < |hits| && hits[i].Some? ==> hits[i].value.position == i
  }

  /** A pass emits, in cursor order, exactly the hits of the records: positions
      strictly increase (so at most one result per record), each result is its
      record's hit, and every record that hits is represented. */
  lemma {:induction false} PresentIsOnePass(hits: seq<Option<QueryResult>>)
    requires PositionsTagged(hits)
    ensures forall a, b :: 0 <= a < b < |Present(hits)| ==> Present(hits)[a].position < Present(hits)[b].position
    ensures forall r :: r in Present(hits) ==> r.position < |hits| && hits[r.position] == Some(r)
    ensures forall i :: 0 <= i < |hits| && hits[i].Some? ==> hits[i].value in Present(hits)
    decreases |hits|
  {
    if hits != [] {
      var h' := hits[..|hits| - 1];
      assert PositionsTagged(h');
      PresentIsOnePass(h');
    }
  }

  // ---------------------------------------------------------------------------
  // Sorting with `RegexQueryResult.compareTo`, given as `le`.

  ghost predicate Total(le: (QueryResult, QueryResult) -> bool) {
    forall a, b :: le(a, b) || le(b, a)
  }

  ghost predicate Transitive(le: (QueryResult, QueryResult) -> bool) {
    forall a, b, c :: le(a, b) && le(b, c) ==> le(a, c)
  }

  /** Each result is ordered no later than its successor. */
  ghost predicate Sorted(le: (QueryResult, QueryResult) -> bool, s: seq<QueryResult>) {
    forall i :: 0 < i < |s| ==> le(s[i - 1], s[i])
  }

  /** Places `x` before the first element it is ordered no later than. */
  function Insert(le: (QueryResult, QueryResult) -> bool, x: QueryResult, s: seq<QueryResult>): (r: seq<QueryResult>)
    ensures multiset(r) == multiset(s) + multiset{x}
    ensures |r| == |s| + 1 && (r[0] == x || (s != [] && r[0] == s[0]))
    ensures Total(le) && Sorted(le, s) ==> Sorted(le, r)
  {
    if s == [] then [x]
    else if le(x, s[0]) then [x] + s
    else
      var t := Insert(le, x, s[1..]);
      assert s == [s[0]] + s[1..];
      assert Total(le) && Sorted(le, s) ==> Sorted(le, s[1..]);
      [s[0]] + t
  }

  /** `Collections.sort`: a permutation of its input, ordered when the
      comparison is total. */
  function Sort(le: (QueryResult, QueryResult) -> bool, s: seq<QueryResult>): (r: seq<QueryResult>)
    ensures multiset(r) == multiset(s)
    ensures |r| == |s|
    ensures Total(le) ==> Sorted(le, r)
  {
    if s == [] then []
    else
      assert s == [s[0]] + s[1..];
      Insert(le, s[0], Sort(le, s[1..]))
  }

  /** For a total preorder, the neighbour-by-neighbour order extends to every pair. */
  lemma {:induction false} SortedPairwise(le: (QueryResult, QueryResult) -> bool, s: seq<QueryResult>, a: nat, b: nat)
    requires Transitive(le) && Total(le) && Sorted(le, s)
    requires a <= b < |s|
    ensures le(s[a], s[b])
    decreases b - a
  {
    if a == b {
      assert le(s[a], s[a]);
    } else {
      SortedPairwise(le, s, a + 1, b);
    }
  }
}
