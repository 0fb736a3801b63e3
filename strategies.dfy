/** The three strategies of `ContactsFilter`: raw substring search, pinyin
    keyword search and keypad-regex search. Each makes one pass over the
    records in cursor order and emits at most one result per record. The
    per-record functions (`RawHit`, `PinyinHit`, `RegexHit`) specify what a
    record yields, their `...Meaning` lemmas say what that is, and the methods
    are the source's cursor loops. */
module Strategies {
  import opened Values
  import opened JavaText
  import opened RegexBuilder
  import opened RegexMatch
  import opened QueryResults

  /** Code the adapter calls but that is not part of this model:
      `String.toLowerCase`, `formatNumber` (a wrapper around the platform's
      `PhoneNumberUtils`), the pinyin library's match keyword for a name and a
      lower-cased query, and `RegexQueryResult.compareTo` as "orders no later". */
  datatype Collaborators = Collaborators(
    lower: string -> string,
    format: string -> string,
    pinyinKeyword: (string, string) -> string,
    le: (QueryResult, QueryResult) -> bool)

  /** The name-only sentinel of the regex strategy: `256 + numberStart` as a Java `int`. */
  function RegexSentinel(numberStart: int): (r: int)
    ensures 0 <= numberStart <= IntMax - 256 ==> r == 256 + numberStart
    ensures IntMax - 256 < numberStart <= IntMax ==> r == 256 + numberStart - 0x1_0000_0000
  {
    Wrap32(256 + numberStart)
  }

  /** One more record of a pass appends that record's hit, if any. */
  lemma PresentStep(hits: seq<Option<QueryResult>>, i: nat)
    requires i < |hits|
    ensures Present(hits[..i + 1]) ==
      Present(hits[..i]) + (match hits[i] case Some(r) => [r] case None => [])
  {
    assert hits[..i + 1][..i] == hits[..i];
  }

  /** The number part shared by `filterRaw` and `filterPinyin`: the first
      occurrence of the lower-cased query in the lower-cased number. */
  function LowerNumberIndex(env: Collaborators, ql: string, rec: Record): int {
    if rec.number.Some? then IndexOf(env.lower(rec.number.value), ql) else -1
  }

  /** Completes a result for a record whose number may have hit: `base` is the
      name result, if any, and `sentinel` the name span of a number-only hit. */
  function WithNumber(base: Option<QueryResult>, pos: nat, sentinel: int, numberPlace: Option<Span>): Option<QueryResult> {
    if numberPlace.Some? then
      var q := if base.Some? then base.value else QueryResult(pos, sentinel, sentinel, None);
      Some(q.(numberPlace := numberPlace))
    else base
  }

  // ---------------------------------------------------------------------------
  // Raw

  /** The raw name result of `rec`: the lower-cased name searched for `ql`. */
  function RawName(env: Collaborators, ql: string, rec: Record, pos: nat): Option<QueryResult> {
    var nameIndex := if rec.name.Some? then IndexOf(env.lower(rec.name.value), ql) else -1;
    if nameIndex != -1 then Some(QueryResult(pos, nameIndex, nameIndex + |ql|, None)) else None
  }

  /** What record `rec` at cursor position `pos` yields in `filterRaw`, for the
      lower-cased query `ql`. */
  function RawHit(env: Collaborators, ql: string, rec: Record, pos: nat): Option<QueryResult> {
    var numberIndex := LowerNumberIndex(env, ql, rec);
    WithNumber(RawName(env, ql, rec, pos), pos, 0,
      if numberIndex != -1 then Some(Span(numberIndex, numberIndex + |ql|)) else None)
  }

  /** Raw mode: a record qualifies exactly when its lower-cased name or number
      contains the lower-cased query; each span starts at the first occurrence
      and is as long as the query; a number-only hit has the name span `(0, 0)`. */
  lemma RawHitMeaning(env: Collaborators, ql: string, rec: Record, pos: nat)
    ensures var r := RawHit(env, ql, rec, pos);
      var nameHit := rec.name.Some? && Occurs(env.lower(rec.name.value), ql);
      var numberHit := rec.number.Some? && Occurs(env.lower(rec.number.value), ql);
      && (r.Some? <==> nameHit || numberHit)
      && (r.Some? ==> r.value.position == pos)
      && (nameHit ==> FirstOccurrence(env.lower(rec.name.value), ql, r.value.start)
                      && r.value.end == r.value.start + |ql|)
      && (r.Some? && !nameHit ==> r.value.start == 0 && r.value.end == 0)
      && (r.Some? ==> (r.value.numberPlace.Some? <==> numberHit))
      && (numberHit ==> FirstOccurrence(env.lower(rec.number.value), ql, r.value.numberPlace.value.start)
                        && r.value.numberPlace.value.end == r.value.numberPlace.value.start + |ql|)
  {
  }

  function RawHits(env: Collaborators, ql: string, records: seq<Record>): (hits: seq<Option<QueryResult>>)
    ensures |hits| == |records|
    ensures forall i :: 0 <= i < |records| ==> hits[i] == RawHit(env, ql, records[i], i)
  {
    seq(|records|, i requires 0 <= i < |records| => RawHit(env, ql, records[i], i))
  }

  /** One step of the `filterRaw` cursor loop: the record at `position`. */
  method RawRecord(env: Collaborators, constraintString: string, rec: Record, position: nat)
    returns (queryResult: Option<QueryResult>)
    ensures queryResult == RawHit(env, constraintString, rec, position)
  {
    queryResult := None;
    if rec.name.Some? {
      var name := env.lower(rec.name.value);
      var nameIndexOfConstraint := IndexOf(name, constraintString);
      if nameIndexOfConstraint != -1 {
        queryResult := Some(QueryResult(position, nameIndexOfConstraint, nameIndexOfConstraint + |constraintString|, None));
      }
    }
    if rec.number.Some? {
      var number := env.lower(rec.number.value);
      var numberIndexOfConstraint := IndexOf(number, constraintString);
      if numberIndexOfConstraint != -1 {
        if queryResult.None? {
          queryResult := Some(QueryResult(position, 0, 0, None));
        }
        queryResult := Some(queryResult.value.(numberPlace :=
          Some(Span(numberIndexOfConstraint, numberIndexOfConstraint + |constraintString|))));
      }
    }
  }

  /** `filterRaw`: the query and each field are lower-cased, then searched with
      `indexOf`; records are visited from the first to the last. */
  method FilterRaw(env: Collaborators, records: seq<Record>, constraint: string) returns (resultsList: seq<QueryResult>)
    ensures resultsList == Present(RawHits(env, env.lower(constraint), records))
  {
    var constraintString := env.lower(constraint);
    ghost var hits := RawHits(env, constraintString, records);
    resultsList := [];
    var position := 0;
    while position < |records|
      invariant position <= |records|
      invariant resultsList == Present(hits[..position])
    {
      var queryResult := RawRecord(env, constraintString, records[position], position);
      PresentStep(hits, position);
      if queryResult.Some? {
        resultsList := resultsList + [queryResult.value];
      }
      position := position + 1;
    }
    assert hits[..|records|] == hits;
  }

  // ---------------------------------------------------------------------------
  // Pinyin

  /** The name of `rec` holds, literally, the non-empty pinyin keyword that the
      library reports for the lower-cased query `ql`. */
  ghost predicate PinyinNameHit(env: Collaborators, ql: string, rec: Record) {
    rec.name.Some? && env.pinyinKeyword(rec.name.value, ql) != [] &&
    Occurs(rec.name.value, env.pinyinKeyword(rec.name.value, ql))
  }

  /** The pinyin name result of `rec`. */
  function PinyinName(env: Collaborators, ql: string, rec: Record, pos: nat): Option<QueryResult> {
    var keyword := if rec.name.Some? then env.pinyinKeyword(rec.name.value, ql) else [];
    var nameIndex := if rec.name.Some? && keyword != [] then IndexOf(rec.name.value, keyword) else -1;
    if nameIndex != -1 then Some(QueryResult(pos, nameIndex, nameIndex + |keyword|, None)) else None
  }

  /** What record `rec` at cursor position `pos` yields in `filterPinyin`. */
  function PinyinHit(env: Collaborators, ql: string, rec: Record, pos: nat): Option<QueryResult> {
    var numberIndex := LowerNumberIndex(env, ql, rec);
    WithNumber(PinyinName(env, ql, rec, pos), pos, IntMax,
      if numberIndex != -1 then Some(Span(numberIndex, numberIndex + |ql|)) else None)
  }

  /** Pinyin mode: a record qualifies exactly when its name literally holds the
      non-empty pinyin keyword or its lower-cased number contains the query;
      the name span covers the keyword's first occurrence in the original name,
      and a number-only hit has the name span `(MAX_VALUE, MAX_VALUE)`. */
  lemma PinyinHitMeaning(env: Collaborators, ql: string, rec: Record, pos: nat)
    ensures var r := PinyinHit(env, ql, rec, pos);
      var nameHit := PinyinNameHit(env, ql, rec);
      var numberHit := rec.number.Some? && Occurs(env.lower(rec.number.value), ql);
      && (r.Some? <==> nameHit || numberHit)
      && (r.Some? ==> r.value.position == pos)
      && (nameHit ==>
            var keyword := env.pinyinKeyword(rec.name.value, ql);
            FirstOccurrence(rec.name.value, keyword, r.value.start) && r.value.end == r.value.start + |keyword|)
      && (r.Some? && !nameHit ==> r.value.start == IntMax && r.value.end == IntMax)
      && (r.Some? ==> (r.value.numberPlace.Some? <==> numberHit))
      && (numberHit ==> FirstOccurrence(env.lower(rec.number.value), ql, r.value.numberPlace.value.start)
                        && r.value.numberPlace.value.end == r.value.numberPlace.value.start + |ql|)
  {
  }

  function PinyinHits(env: Collaborators, ql: string, records: seq<Record>): (hits: seq<Option<QueryResult>>)
    ensures |hits| == |records|
    ensures forall i :: 0 <= i < |records| ==> hits[i] == PinyinHit(env, ql, records[i], i)
  {
    seq(|records|, i requires 0 <= i < |records| => PinyinHit(env, ql, records[i], i))
  }

  /** One step of the `filterPinyin` cursor loop: the record at `position`. */
  method PinyinRecord(env: Collaborators, constraintString: string, rec: Record, position: nat)
    returns (queryResult: Option<QueryResult>)
    ensures queryResult == PinyinHit(env, constraintString, rec, position)
  {
    queryResult := None;
    if rec.name.Some? {
      var keyword := env.pinyinKeyword(rec.name.value, constraintString);
      var pinyinIndexOfConstraint := if keyword == [] then -1 else IndexOf(rec.name.value, keyword);
      if pinyinIndexOfConstraint != -1 {
        queryResult := Some(QueryResult(position, pinyinIndexOfConstraint, pinyinIndexOfConstraint + |keyword|, None));
      }
    }
    if rec.number.Some? {
      var number := env.lower(rec.number.value);
      var numberIndexOfConstraint := IndexOf(number, constraintString);
      if numberIndexOfConstraint != -1 {
        if queryResult.None? {
          queryResult := Some(QueryResult(position, IntMax, IntMax, None));
        }
        queryResult := Some(queryResult.value.(numberPlace :=
          Some(Span(numberIndexOfConstraint, numberIndexOfConstraint + |constraintString|))));
      }
    }
  }

  /** `filterPinyin`: names matched through the pinyin keyword, numbers as in
      `filterRaw`; records are visited from the first to the last. */
  method FilterPinyin(env: Collaborators, records: seq<Record>, constraint: string) returns (resultsList: seq<QueryResult>)
    ensures resultsList == Present(PinyinHits(env, env.lower(constraint), records))
  {
    var constraintString := env.lower(constraint);
    ghost var hits := PinyinHits(env, constraintString, records);
    resultsList := [];
    var position := 0;
    while position < |records|
      invariant position <= |records|
      invariant resultsList == Present(hits[..position])
    {
      var queryResult := PinyinRecord(env, constraintString, records[position], position);
      PresentStep(hits, position);
      if queryResult.Some? {
        resultsList := resultsList + [queryResult.value];
      }
      position := position + 1;
    }
    assert hits[..|records|] == hits;
  }

  // ---------------------------------------------------------------------------
  // Regex

  /** The name pattern matches at offset 0 or right after a run of whitespace. */
  ghost predicate RegexNameHits(atoms: seq<Atom>, name: string) {
    NameMatchesAt(atoms, name, 0) || exists j, k :: WordStartWitness(atoms, name, j, k)
  }

  /** Some text of the number pattern's shape occurs in `s`. */
  ghost predicate RegexNumberHits(q: string, s: string) {
    exists j, e :: 0 <= j <= e <= |s| && NumberText(q, s[j..e])
  }

  /** The regex name span of `rec`. */
  function RegexNameSpan(atoms: seq<Atom>, rec: Record): Option<Span> {
    if rec.name.Some? then NameHit(atoms, rec.name.value) else None
  }

  /** The regex number span of `rec`, searched in the formatted number. */
  function RegexNumberSpan(env: Collaborators, q: string, rec: Record): Option<Span>
    requires |q| > 0
  {
    if rec.number.Some? then NumberFindFrom(q, env.format(rec.number.value), 0) else None
  }

  /** What record `rec` at cursor position `pos` yields in `filterWithRegex`,
      for the name pattern `atoms` and the number pattern of query `q`. */
  function RegexHit(env: Collaborators, atoms: seq<Atom>, q: string, rec: Record, pos: nat): Option<QueryResult>
    requires |q| > 0
  {
    var nameSpan := RegexNameSpan(atoms, rec);
    var numberSpan := RegexNumberSpan(env, q, rec);
    WithNumber(
      if nameSpan.Some? then Some(QueryResult(pos, nameSpan.value.start, nameSpan.value.end, None)) else None,
      pos, if numberSpan.Some? then RegexSentinel(numberSpan.value.start) else 0, numberSpan)
  }

  /** Regex mode, which records qualify: those whose name has a prefix or a
      word-start match of the name pattern (a mid-word occurrence alone does
      not count) or whose formatted number holds the query's characters with
      only separators between them; the number span is set exactly on such a
      number match. */
  lemma RegexHitQualifies(env: Collaborators, atoms: seq<Atom>, q: string, rec: Record, pos: nat)
    requires |q| > 0
    ensures var r := RegexHit(env, atoms, q, rec, pos);
      && (r.Some? <==>
            (rec.name.Some? && RegexNameHits(atoms, rec.name.value)) ||
            (rec.number.Some? && RegexNumberHits(q, env.format(rec.number.value))))
      && (r.Some? ==> r.value.position == pos)
      && (r.Some? ==> (r.value.numberPlace.Some? <==>
            rec.number.Some? && RegexNumberHits(q, env.format(rec.number.value))))
  {
    if rec.name.Some? {
      NameHitExists(atoms, rec.name.value);
    }
    if rec.number.Some? {
      NumberFindMeaning(q, env.format(rec.number.value));
    }
  }

  /** Regex mode, the name span: `[0, |pattern|)` for a prefix match; otherwise
      the leftmost whitespace run followed by a match, starting at the
      whitespace and taking the run as long as it can be. */
  lemma RegexHitNameSpan(env: Collaborators, atoms: seq<Atom>, q: string, rec: Record, pos: nat)
    requires |q| > 0
    requires rec.name.Some? && RegexNameHits(atoms, rec.name.value)
    ensures var r := RegexHit(env, atoms, q, rec, pos);
      && r.Some?
      && (NameMatchesAt(atoms, rec.name.value, 0) ==> r.value.start == 0 && r.value.end == |atoms|)
      && (!NameMatchesAt(atoms, rec.name.value, 0) ==>
            FirstWordStart(atoms, rec.name.value, Span(r.value.start, r.value.end)))
  {
    var name := rec.name.value;
    NameHitExists(atoms, name);
    NameHitSpan(atoms, name);
    var sp := NameHit(atoms, name).value;
    var r := RegexHit(env, atoms, q, rec, pos);
    assert r.Some? && r.value.start == sp.start && r.value.end == sp.end;
  }

  /** Regex mode, the number span: the leftmost text of the number pattern's
      shape in the formatted number; a number-only hit gets the zero-width
      name span at `256 + numberStart`. */
  lemma RegexHitNumberSpan(env: Collaborators, atoms: seq<Atom>, q: string, rec: Record, pos: nat)
    requires |q| > 0
    requires rec.number.Some? && RegexNumberHits(q, env.format(rec.number.value))
    ensures var r := RegexHit(env, atoms, q, rec, pos);
      var f := env.format(rec.number.value);
      && r.Some? && r.value.numberPlace.Some?
      && var np := r.value.numberPlace.value;
      && 0 <= np.start <= np.end <= |f|
      && NumberText(q, f[np.start..np.end])
      && (forall j, e :: 0 <= j < np.start && j <= e <= |f| ==> !NumberText(q, f[j..e]))
      && (RegexNameSpan(atoms, rec).None? ==> r.value.start == r.value.end == RegexSentinel(np.start))
  {
    NumberFindMeaning(q, env.format(rec.number.value));
  }

  function RegexHits(env: Collaborators, atoms: seq<Atom>, q: string, records: seq<Record>): (hits: seq<Option<QueryResult>>)
    requires |q| > 0
    ensures |hits| == |records|
    ensures forall i :: 0 <= i < |records| ==> hits[i] == RegexHit(env, atoms, q, records[i], i)
  {
    seq(|records|, i requires 0 <= i < |records| => RegexHit(env, atoms, q, records[i], i))
  }

  /** One step of the `filterWithRegex` cursor loop: the record at `position`. */
  method RegexRecord(env: Collaborators, namePattern: seq<Atom>, numberPattern: string, rec: Record, position: nat)
    returns (queryResult: Option<QueryResult>)
    requires |numberPattern| > 0
    ensures queryResult == RegexHit(env, namePattern, numberPattern, rec, position)
  {
    queryResult := None;
    if rec.name.Some? {
      var found := NameFindFrom(namePattern, rec.name.value, 0);
      if found.Some? {
        if found.value == 0 {
          queryResult := Some(QueryResult(position, 0, |namePattern|, None));
        } else {
          var wordStart := WordStartFindFrom(namePattern, rec.name.value, 0);
          if wordStart.Some? {
            queryResult := Some(QueryResult(position, wordStart.value.start, wordStart.value.end, None));
          }
        }
      }
    }
    if rec.number.Some? {
      var numberMatch := NumberFindFrom(numberPattern, env.format(rec.number.value), 0);
      if numberMatch.Some? {
        if queryResult.None? {
          var sentinel := RegexSentinel(numberMatch.value.start);
          queryResult := Some(QueryResult(position, sentinel, sentinel, None));
        }
        queryResult := Some(queryResult.value.(numberPlace := numberMatch));
      }
    }
  }

  /** `filterWithRegex`: builds the name pattern, its `\s+`-prefixed word-start
      variant and the number pattern once, then scans the records from the
      first to the last, matching names as they are and numbers after
      `formatNumber`. */
  method FilterWithRegex(env: Collaborators, keypad: Keypad, records: seq<Record>, constraint: string)
    returns (resultsList: seq<QueryResult>)
    requires |constraint| > 0 && NumberQuery(constraint)
    ensures resultsList == Present(RegexHits(env, NameAtoms(keypad, constraint), constraint, records))
  {
    var nameRegex := FormContactNameRegex(keypad, constraint);
    var numberRegex := FormNumberRegex(constraint);
    // Compiling: `nameRegex` is the fragments' source texts, and what it
    // denotes is taken from each fragment's `letters` (`NameAtoms`); the number
    // pattern's literals are read back from its text.
    var namePattern := NameAtoms(keypad, constraint);
    var parsed := ParseNumberRegex(numberRegex);
    assert parsed == Some(constraint) by {
      NumberRegexRoundTrip(constraint);
    }
    var numberPattern := parsed.value;
    ghost var hits := RegexHits(env, namePattern, numberPattern, records);
    resultsList := [];
    var position := 0;
    while position < |records|
      invariant position <= |records|
      invariant resultsList == Present(hits[..position])
    {
      var queryResult := RegexRecord(env, namePattern, numberPattern, records[position], position);
      PresentStep(hits, position);
      if queryResult.Some? {
        resultsList := resultsList + [queryResult.value];
      }
      position := position + 1;
    }
    assert hits[..|records|] == hits;
  }
}
