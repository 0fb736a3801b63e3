/** `ContactsEntryAdapter` and its inner `ContactsFilter`: the adapter keeps
    the keypad table, the filtering mode, the contacts cursor and the list of
    results the last filter pass published; the filter runs the strategy the
    mode selects, sorts its output and hands it back to the adapter. */
module Adapter {
  import opened Values
  import opened RegexBuilder
  import opened QueryResults
  import opened Strategies

  const FILTERING_MODE_REGEX: int := 0
  const FILTERING_MODE_RAW: int := 1
  const FILTERING_MODE_PINYIN: int := 2

  /** `Filter.FilterResults`: `values` is `None` where the list is `null`. */
  datatype FilterResults = FilterResults(values: Option<seq<QueryResult>>, count: int)

  /** `getPhoneNumber`: `Failed` where the call throws (no list, a position
      outside it, no cursor, or a cursor row that is not there), otherwise the
      number column, `None` where it is `null`. */
  datatype Lookup = Failed | Found(number: Option<string>)

  /** What the strategy the mode selects appends to a fresh list, in cursor
      order; a mode that is none of the three appends nothing. */
  function StrategyOutput(mode: int, env: Collaborators, keypad: Keypad, records: seq<Record>, constraint: string): seq<QueryResult>
    requires mode == FILTERING_MODE_REGEX ==> |constraint| > 0
  {
    if mode == FILTERING_MODE_RAW then Present(RawHits(env, env.lower(constraint), records))
    else if mode == FILTERING_MODE_PINYIN then Present(PinyinHits(env, env.lower(constraint), records))
    else if mode == FILTERING_MODE_REGEX then Present(RegexHits(env, NameAtoms(keypad, constraint), constraint, records))
    else []
  }

  /** The filter pass throws: every strategy starts by moving the cursor, and
      `formNumberRegex` reads the query's first character. */
  predicate Throws(mode: int, cursor: Option<seq<Record>>, constraint: string) {
    (mode == FILTERING_MODE_RAW || mode == FILTERING_MODE_PINYIN || mode == FILTERING_MODE_REGEX)
    && (cursor.None? || (mode == FILTERING_MODE_REGEX && constraint == []))
  }

  /** A filter pass over `cursor`: `Filter` catches what `performFiltering`
      throws and delivers results with a `null` list; otherwise the sorted
      output of the selected strategy. */
  function FilterOutcome(mode: int, env: Collaborators, keypad: Keypad, cursor: Option<seq<Record>>, constraint: string): FilterResults {
    if Throws(mode, cursor, constraint) then FilterResults(None, 0)
    else
      var records := if cursor.Some? then cursor.value else [];
      var sorted := Sort(env.le, StrategyOutput(mode, env, keypad, records, constraint));
      FilterResults(Some(sorted), |sorted|)
  }

  /** Every strategy makes one pass: each result names a record of the cursor,
      the positions strictly increase, and no mode outside the three emits
      anything. */
  lemma StrategyOutputOnePass(mode: int, env: Collaborators, keypad: Keypad, records: seq<Record>, constraint: string)
    requires mode == FILTERING_MODE_REGEX ==> |constraint| > 0
    ensures var out := StrategyOutput(mode, env, keypad, records, constraint);
      && (forall r :: r in out ==> r.position < |records|)
      && (forall a, b :: 0 <= a < b < |out| ==> out[a].position < out[b].position)
      && (mode != FILTERING_MODE_RAW && mode != FILTERING_MODE_PINYIN && mode != FILTERING_MODE_REGEX ==> out == [])
  {
    var ql := env.lower(constraint);
    if mode == FILTERING_MODE_RAW {
      var hits := RawHits(env, ql, records);
      forall i | 0 <= i < |hits| && hits[i].Some? ensures hits[i].value.position == i {
        RawHitMeaning(env, ql, records[i], i);
      }
      PresentIsOnePass(hits);
    } else if mode == FILTERING_MODE_PINYIN {
      var hits := PinyinHits(env, ql, records);
      forall i | 0 <= i < |hits| && hits[i].Some? ensures hits[i].value.position == i {
        PinyinHitMeaning(env, ql, records[i], i);
      }
      PresentIsOnePass(hits);
    } else if mode == FILTERING_MODE_REGEX {
      var hits := RegexHits(env, NameAtoms(keypad, constraint), constraint, records);
      forall i | 0 <= i < |hits| && hits[i].Some? ensures hits[i].value.position == i {
        RegexHitQualifies(env, NameAtoms(keypad, constraint), constraint, records[i], i);
      }
      PresentIsOnePass(hits);
    }
  }

  /** The delivered list holds exactly the strategy's results, reordered,
      each naming a record of the cursor; it is sorted when the comparator is
      total; a pass that throws delivers no list and a count of zero. */
  lemma FilterOutcomeMeaning(mode: int, env: Collaborators, keypad: Keypad, cursor: Option<seq<Record>>, constraint: string)
    ensures var out := FilterOutcome(mode, env, keypad, cursor, constraint);
      var records := if cursor.Some? then cursor.value else [];
      && (out.values.None? <==> Throws(mode, cursor, constraint))
      && (out.values.None? ==> out.count == 0)
      && (out.values.Some? ==>
            && out.count == |out.values.value|
            && multiset(out.values.value) == multiset(StrategyOutput(mode, env, keypad, records, constraint))
            && (Total(env.le) ==> Sorted(env.le, out.values.value))
            && (forall r :: r in out.values.value ==> cursor.Some? && r.position < |cursor.value|))
  {
    var out := FilterOutcome(mode, env, keypad, cursor, constraint);
    if out.values.Some? {
      var records := if cursor.Some? then cursor.value else [];
      StrategyOutputOnePass(mode, env, keypad, records, constraint);
      var strategy := StrategyOutput(mode, env, keypad, records, constraint);
      forall r | r in out.values.value ensures cursor.Some? && r.position < |cursor.value| {
        assert r in multiset(out.values.value);
        assert r in strategy;
      }
    }
  }

  class ContactsEntryAdapter {
    var filteringMode: int
    /** `regexQueryResults`; `None` once a failed pass published a `null` list. */
    var regexQueryResults: Option<seq<QueryResult>>
    var mFilter: ContactsFilter?
    /** `mCursor`: the contact rows, `None` while no cursor is set. */
    var cursor: Option<seq<Record>>
    var t9NumberPatterns: Keypad
    const env: Collaborators

    /** The filter object, when there is one, belongs to this adapter. */
    ghost predicate Valid()
      reads this
    {
      mFilter != null ==> mFilter.adapter == this
    }

    /** Every published result names a row of the current cursor. */
    ghost predicate ResultsInCursor()
      reads this
    {
      regexQueryResults.Some? ==>
        forall r :: r in regexQueryResults.value ==> cursor.Some? && r.position < |cursor.value|
    }

    /** The constructor: the keypad table from the resources, an empty result
      list, no cursor, no filter yet and the regex mode (an unset `int`). */
    constructor(env: Collaborators, res: Resources)
      requires |res.regexDigits| == 10
      ensures Valid() && ResultsInCursor()
      ensures this.env == env && filteringMode == FILTERING_MODE_REGEX
      ensures regexQueryResults == Some([]) && cursor.None? && mFilter == null
      ensures t9NumberPatterns.Keys == KeypadKeys
      ensures forall c :: '0' <= c <= '9' ==> t9NumberPatterns[c] == res.regexDigits[c as int - '0' as int]
      ensures t9NumberPatterns['*'] == res.regexStar && t9NumberPatterns['#'] == res.regexHash
      ensures t9NumberPatterns['+'] == PlusFragment
    {
      var patterns := InitT9NumberPatterns(res);
      t9NumberPatterns := patterns;
      regexQueryResults := Some([]);
      this.env := env;
      filteringMode := FILTERING_MODE_REGEX;
      mFilter := null;
      cursor := None;
    }

    /** `setCursor`: replaces the cursor; the results published for the old
      one are kept. */
    method SetCursor(c: Option<seq<Record>>)
      modifies this`cursor
      ensures cursor == c
    {
      cursor := c;
    }

    /** `getFilter`: creates the filter on first use and returns the same
      object afterwards. */
    method GetFilter() returns (f: ContactsFilter)
      requires Valid()
      modifies this`mFilter
      ensures Valid() && mFilter == f && f.adapter == this
      ensures old(mFilter) != null ==> f == old(mFilter)
      ensures old(mFilter) == null ==> fresh(f)
    {
      if mFilter == null {
        mFilter := new ContactsFilter(this);
      }
      f := mFilter;
    }

    /** `resetFilter`: drops the filter and empties the result list, if there
      is one; the adapter then reports no rows. */
    method ResetFilter()
      modifies this`mFilter, this`regexQueryResults
      ensures mFilter == null && Valid() && GetCount() == 0
      ensures regexQueryResults == (if old(regexQueryResults).Some? then Some([]) else None)
    {
      mFilter := null;
      if regexQueryResults.Some? {
        regexQueryResults := Some([]);
      }
    }

    /** `getCount`: the number of published results, zero without a list. */
    function GetCount(): (n: int)
      reads this
      ensures n >= 0
      ensures regexQueryResults.None? ==> n == 0
      ensures regexQueryResults.Some? ==> n == |regexQueryResults.value|
    {
      if regexQueryResults.Some? then |regexQueryResults.value| else 0
    }

    /** `setFilteringMode`: any `int` is accepted; one that is none of the three
      modes makes later passes emit nothing. */
    method SetFilteringMode(mode: int)
      modifies this`filteringMode
      ensures filteringMode == mode
    {
      filteringMode := mode;
    }

    /** `getPhoneNumber`: the number of the row the `position`-th result names;
      it fails exactly where the list, the index, the cursor or the row is
      missing, and never for an index below `getCount()` while the results
      name rows of the cursor. */
    method GetPhoneNumber(position: int) returns (r: Lookup)
      ensures r.Found? <==>
        (regexQueryResults.Some? && 0 <= position < |regexQueryResults.value|
         && cursor.Some? && regexQueryResults.value[position].position < |cursor.value|)
      ensures r.Found? ==> r.number == cursor.value[regexQueryResults.value[position].position].number
      ensures ResultsInCursor() && 0 <= position < GetCount() ==> r.Found?
    {
      if regexQueryResults.None? || !(0 <= position < |regexQueryResults.value|) {
        return Failed;
      }
      var row := regexQueryResults.value[position].position;
      if cursor.None? || row >= |cursor.value| {
        return Failed;
      }
      r := Found(cursor.value[row].number);
    }
  }

  class ContactsFilter {
    const adapter: ContactsEntryAdapter

    constructor(adapter: ContactsEntryAdapter)
      ensures this.adapter == adapter
    {
      this.adapter := adapter;
    }

    /** `performFiltering`, with the framework's catch around it: runs the
      strategy of the adapter's mode over its cursor, sorts the list and
      reports its size; a pass that throws yields no list. */
    method PerformFiltering(constraint: string) returns (results: FilterResults)
      requires adapter.filteringMode == FILTERING_MODE_REGEX && |constraint| > 0 ==> NumberQuery(constraint)
      ensures results == FilterOutcome(adapter.filteringMode, adapter.env, adapter.t9NumberPatterns, adapter.cursor, constraint)
    {
      var mode := adapter.filteringMode;
      var env := adapter.env;
      if Throws(mode, adapter.cursor, constraint) {
        return FilterResults(None, 0);
      }
      var resultsList: seq<QueryResult> := [];
      if mode == FILTERING_MODE_RAW {
        resultsList := FilterRaw(env, adapter.cursor.value, constraint);
      } else if mode == FILTERING_MODE_PINYIN {
        resultsList := FilterPinyin(env, adapter.cursor.value, constraint);
      } else if mode == FILTERING_MODE_REGEX {
        resultsList := FilterWithRegex(env, adapter.t9NumberPatterns, adapter.cursor.value, constraint);
      }
      resultsList := Sort(env.le, resultsList);
      results := FilterResults(Some(resultsList), |resultsList|);
    }

    /** `publishResults`: the adapter's list becomes the delivered one, whole. */
    method PublishResults(constraint: string, results: FilterResults)
      modifies adapter`regexQueryResults
      ensures adapter.regexQueryResults == results.values
    {
      adapter.regexQueryResults := results.values;
    }

    /** One `filter` request, run to completion: the pass and then its
      publication. Afterwards the adapter reports as many rows as the pass
      delivered, and each names a row of the cursor. */
    method Filter(constraint: string)
      requires adapter.filteringMode == FILTERING_MODE_REGEX && |constraint| > 0 ==> NumberQuery(constraint)
      modifies adapter`regexQueryResults
      ensures adapter.regexQueryResults ==
        FilterOutcome(adapter.filteringMode, adapter.env, adapter.t9NumberPatterns, adapter.cursor, constraint).values
      ensures adapter.ResultsInCursor()
      ensures adapter.GetCount() ==
        FilterOutcome(adapter.filteringMode, adapter.env, adapter.t9NumberPatterns, adapter.cursor, constraint).count
    {
      var results := PerformFiltering(constraint);
      FilterOutcomeMeaning(adapter.filteringMode, adapter.env, adapter.t9NumberPatterns, adapter.cursor, constraint);
      PublishResults(constraint, results);
    }
  }
}
