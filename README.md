# Contact search of emerald-dialer's `ContactsEntryAdapter`

The dialer's contact list is an Android `BaseAdapter` with a `Filter` attached.
When the user types on the keypad, the filter makes one pass over the contacts
cursor and builds a list of `RegexQueryResult`s. Each result holds the row's
cursor position, the span of the query in the name and, when the number
matched too, its span in the number. The filter sorts the list and hands it
to the adapter. The adapter shows it and later answers `getCount` and
`getPhoneNumber` from it.

Three strategies exist, chosen by `filteringMode`:

- **raw**: a lower-cased substring search in name and number;
- **pinyin**: the pinyin library's match keyword in the name, plus a substring
  search in the number;
- **regex** (keypad): the query becomes a name pattern and a number pattern.
  - The name pattern is one localized keypad letter class per typed key. It
    counts only at the start of the name or right after whitespace.
  - The number pattern is the typed characters with `[\W]*` between them. It
    is matched against the formatted number.

The model is made of these modules:

- `Values`: `Option`, spans and Java `int` wrap-around.
- `JavaText`: `\s`, `\w` and `String.indexOf`.
- `RegexBuilder`: the keypad table and the two pattern builders. The number
  pattern text is read back by a parser, and the round trip is proved.
- `RegexMatch`: `Matcher.find` for both pattern shapes. This covers greedy
  `\s+` and `[\W]*` with their back-off, and the leftmost start.
- `QueryResults`: the record and result types, the one-pass list and the sort.
- `Strategies`: the three cursor loops as methods. Each is proved against a
  per-record function whose meaning is stated as lemmas.
- `Adapter`: the classes `ContactsEntryAdapter` and `ContactsFilter`. They
  hold the adapter's fields and the filter's pass and publication.

The platform and library code the adapter calls is passed in as function
values of `Strategies.Collaborators`:

- `toLowerCase`;
- `formatNumber`;
- the pinyin keyword;
- `RegexQueryResult.compareTo`, taken as an "orders no later" relation.

In three places the code behaves differently from what one might expect.
The model follows the code in each:

- **Unmapped query characters.** One might expect a character with no keypad
  entry to be an error. The code looks it up in a `HashMap` and appends the
  `null` it gets, that is the four characters `null`, to the name pattern.
  `RegexBuilder.NameAtomsOfUnmapped` states this.
- **Empty query.** One might expect an empty query to be rejected up front. In
  regex mode, `formNumberRegex` reads the first character and throws. Android's
  `Filter` catches that and publishes results whose list is `null`.
  `Adapter.Throws` and `Adapter.FilterOutcome` model this path. The other two
  modes accept it: `indexOf("")` is 0, so in raw mode every row with a name or
  a number hits with span (0, 0), and in pinyin mode every row with a number hits.
- **A failed pass.** One might expect a failed pass to leave the previous
  result list intact. Because `Filter` publishes the `null` list, the code
  replaces it. `Adapter.ContactsFilter.Filter` states this.

## Model

| member | source | states |
|---|---|---|
| Values.Wrap32 | app/src/main/java/ru/henridellal/dialer/ContactsEntryAdapter.java:333 | Java `int` addition: the result is in the 32-bit range, equal to the exact value modulo 2^32, and equal to it whenever that is in range |
| JavaText.IndexOf | app/src/main/java/ru/henridellal/dialer/ContactsEntryAdapter.java:286 | `indexOf` is -1 exactly when the query does not occur; otherwise it is the first offset where it occurs |
| RegexBuilder.InitT9NumberPatterns | app/src/main/java/ru/henridellal/dialer/ContactsEntryAdapter.java:88-96 | the table has exactly the keys 0-9, `*`, `#`, `+`; each digit maps to its `regex_N` resource, `*` and `#` to theirs, and `+` to the quoted literal `+` |
| RegexBuilder.FormContactNameRegex | app/src/main/java/ru/henridellal/dialer/ContactsEntryAdapter.java:211-219 | the builder loop produces the concatenation of each query character's table entry, "null" for a missing one |
| RegexBuilder.NameRegexTextAppend | app/src/main/java/ru/henridellal/dialer/ContactsEntryAdapter.java:211-219 | the name pattern of a concatenated query is the concatenation of the patterns of its parts |
| RegexBuilder.NameAtomsOfKeys | app/src/main/java/ru/henridellal/dialer/ContactsEntryAdapter.java:211-219 | for a query of keypad keys the pattern has one element per character, the i-th being the letter class of the i-th key |
| RegexBuilder.NameAtomsOfUnmapped | app/src/main/java/ru/henridellal/dialer/ContactsEntryAdapter.java:214-216 | a character missing from the table appends the text "null", which matches the literal characters n, u, l, l |
| RegexBuilder.IsRegexIdentifier | app/src/main/java/ru/henridellal/dialer/ContactsEntryAdapter.java:221-223 | the characters that get quoted are keypad keys and not word characters |
| RegexBuilder.FormNumberRegex | app/src/main/java/ru/henridellal/dialer/ContactsEntryAdapter.java:225-235 | the builder loop produces the first character, then `[\W]*` and the next character for each further one, with `*`, `#`, `+` quoted |
| RegexBuilder.NumberRegexRoundTrip | app/src/main/java/ru/henridellal/dialer/ContactsEntryAdapter.java:225-235 | for every non-empty query, reading the number pattern back, removing the gaps and the quoting, gives the query again |
| RegexBuilder.NumberRegexLength | app/src/main/java/ru/henridellal/dialer/ContactsEntryAdapter.java:225-235 | the pattern is as long as the query plus four characters per quoted key plus five per gap |
| RegexMatch.NameFindFrom | app/src/main/java/ru/henridellal/dialer/ContactsEntryAdapter.java:321 | `find` for the name pattern: a match at the returned offset and none to its left; `None` means none at all |
| RegexMatch.WordStartAt | app/src/main/java/ru/henridellal/dialer/ContactsEntryAdapter.java:312 | `\s+` followed by the name pattern at one offset: the whitespace run used is a valid one and the longest that works; `None` means none works |
| RegexMatch.WordStartFindFrom | app/src/main/java/ru/henridellal/dialer/ContactsEntryAdapter.java:325-326 | `find` for the word-start pattern: leftmost start, longest whitespace run there, `None` exactly when there is no word-start match |
| RegexMatch.NameHitExists | app/src/main/java/ru/henridellal/dialer/ContactsEntryAdapter.java:321-330 | the name yields a hit exactly when the pattern matches at offset 0 or right after some whitespace |
| RegexMatch.NameHitSpan | app/src/main/java/ru/henridellal/dialer/ContactsEntryAdapter.java:321-330 | the name span is `[0, pattern length)` for a prefix match; otherwise it starts at the first whitespace run that a match follows, and that run is taken as long as possible |
| RegexMatch.MatchRestSound | app/src/main/java/ru/henridellal/dialer/ContactsEntryAdapter.java:313 | what the greedy backtracking for `[\W]*` finds is the query's characters separated by non-word runs |
| RegexMatch.MatchRestComplete | app/src/main/java/ru/henridellal/dialer/ContactsEntryAdapter.java:313 | the backtracking finds a match wherever text of that shape starts |
| RegexMatch.NumberFindFrom | app/src/main/java/ru/henridellal/dialer/ContactsEntryAdapter.java:331 | `find` for the number pattern: a match at the returned start and none to its left; `None` means none at all |
| RegexMatch.NumberMatchAtMeaning | app/src/main/java/ru/henridellal/dialer/ContactsEntryAdapter.java:331 | at one offset, the number pattern matches exactly when text of its shape starts there, and what it matches has that shape |
| RegexMatch.NumberFindMeaning | app/src/main/java/ru/henridellal/dialer/ContactsEntryAdapter.java:331-335 | the number span found is text of the pattern's shape, and no such text starts further left; `None` means the number holds none |
| RegexMatch.NumberTextWordChars | app/src/main/java/ru/henridellal/dialer/ContactsEntryAdapter.java:230 | for a query of word characters, the matched number text with its separators removed is the query |
| QueryResults.PresentIsOnePass | app/src/main/java/ru/henridellal/dialer/ContactsEntryAdapter.java:270-273 | one pass emits results in strictly increasing cursor position: each result is its own row's, and every row that hits is present |
| QueryResults.Insert | app/src/main/java/ru/henridellal/dialer/ContactsEntryAdapter.java:359 | inserting adds exactly the element and keeps a sorted list sorted under a total comparator |
| QueryResults.Sort | app/src/main/java/ru/henridellal/dialer/ContactsEntryAdapter.java:359 | `Collections.sort`: a permutation of the list, sorted when the comparator is total |
| QueryResults.SortedPairwise | app/src/main/java/ru/henridellal/dialer/ContactsEntryAdapter.java:359 | under a transitive comparator, a sorted list orders every earlier element no later than every later one |
| Strategies.RegexSentinel | app/src/main/java/ru/henridellal/dialer/ContactsEntryAdapter.java:333 | the name span of a number-only regex hit is `256 + numberStart` as a Java `int`: the exact sum up to `MAX_VALUE - 256`, and the sum minus 2^32 for the 256 starts above that, up to `MAX_VALUE` |
| Strategies.RawHitMeaning | app/src/main/java/ru/henridellal/dialer/ContactsEntryAdapter.java:284-299 | raw mode: a row hits exactly when its lower-cased name or number contains the lower-cased query; the spans start at the first occurrence and are as long as the query; a number-only hit has name span (0, 0) |
| Strategies.RawRecord | app/src/main/java/ru/henridellal/dialer/ContactsEntryAdapter.java:281-303 | one loop iteration of `filterRaw` yields the row's raw hit |
| Strategies.FilterRaw | app/src/main/java/ru/henridellal/dialer/ContactsEntryAdapter.java:277-306 | the cursor loop appends, in cursor order, exactly the raw hits of the rows |
| Strategies.PinyinHitMeaning | app/src/main/java/ru/henridellal/dialer/ContactsEntryAdapter.java:246-269 | pinyin mode: a row hits exactly when its name holds the non-empty match keyword or its lower-cased number contains the query; a number-only hit has name span (MAX_VALUE, MAX_VALUE) |
| Strategies.PinyinRecord | app/src/main/java/ru/henridellal/dialer/ContactsEntryAdapter.java:243-272 | one loop iteration of `filterPinyin` yields the row's pinyin hit |
| Strategies.FilterPinyin | app/src/main/java/ru/henridellal/dialer/ContactsEntryAdapter.java:239-275 | the cursor loop appends, in cursor order, exactly the pinyin hits of the rows |
| Strategies.RegexHitQualifies | app/src/main/java/ru/henridellal/dialer/ContactsEntryAdapter.java:318-336 | regex mode: a row hits exactly when its name has a prefix or word-start match or its formatted number holds the query with only separators between its characters; a result carries a number span exactly when its number matched |
| Strategies.RegexHitNameSpan | app/src/main/java/ru/henridellal/dialer/ContactsEntryAdapter.java:321-330 | a name hit's span is the prefix match or the first word-start match, starting at the whitespace |
| Strategies.RegexHitNumberSpan | app/src/main/java/ru/henridellal/dialer/ContactsEntryAdapter.java:331-336 | a number hit's span is the leftmost match in the formatted number; a number-only hit gets the zero-width name span at `256 + start` |
| Strategies.RegexRecord | app/src/main/java/ru/henridellal/dialer/ContactsEntryAdapter.java:316-339 | one loop iteration of `filterWithRegex` yields the row's regex hit |
| Strategies.FilterWithRegex | app/src/main/java/ru/henridellal/dialer/ContactsEntryAdapter.java:308-342 | the patterns are built once and the cursor loop appends, in cursor order, exactly the regex hits of the rows, for patterns that match the query's own characters |
| Adapter.StrategyOutputOnePass | app/src/main/java/ru/henridellal/dialer/ContactsEntryAdapter.java:348-358 | every strategy's list names rows of the cursor in strictly increasing order; a mode outside the three yields an empty list |
| Adapter.FilterOutcomeMeaning | app/src/main/java/ru/henridellal/dialer/ContactsEntryAdapter.java:345-363 | a pass yields no list exactly when it throws; otherwise the count is the list's size, and the list is a permutation of the strategy's output, sorted under a total comparator, and naming only cursor rows |
| Adapter.ContactsEntryAdapter.constructor | app/src/main/java/ru/henridellal/dialer/ContactsEntryAdapter.java:75-86 | the new adapter has the keypad table from the resources, an empty result list, no cursor, no filter and the regex mode |
| Adapter.ContactsEntryAdapter.SetCursor | app/src/main/java/ru/henridellal/dialer/ContactsEntryAdapter.java:98-103 | the cursor is replaced and nothing else changes |
| Adapter.ContactsEntryAdapter.GetFilter | app/src/main/java/ru/henridellal/dialer/ContactsEntryAdapter.java:106-111 | a filter is created on first use, the same object is returned afterwards, and it belongs to this adapter |
| Adapter.ContactsEntryAdapter.ResetFilter | app/src/main/java/ru/henridellal/dialer/ContactsEntryAdapter.java:113-117 | the filter is dropped, an existing list is emptied, a missing list stays missing, and `getCount` is then 0 |
| Adapter.ContactsEntryAdapter.GetCount | app/src/main/java/ru/henridellal/dialer/ContactsEntryAdapter.java:119-121 | the size of the published list, 0 when there is none |
| Adapter.ContactsEntryAdapter.SetFilteringMode | app/src/main/java/ru/henridellal/dialer/ContactsEntryAdapter.java:196-198 | any `int` becomes the mode and nothing else changes |
| Adapter.ContactsEntryAdapter.GetPhoneNumber | app/src/main/java/ru/henridellal/dialer/ContactsEntryAdapter.java:200-203 | the number of the row the result names; it fails exactly when the list, index, cursor or row is missing, and never below `getCount()` while the results name cursor rows |
| Adapter.ContactsFilter.PerformFiltering | app/src/main/java/ru/henridellal/dialer/ContactsEntryAdapter.java:345-363 | the pass runs the mode's strategy over the cursor and sorts the result, or yields no list where it throws |
| Adapter.ContactsFilter.PublishResults | app/src/main/java/ru/henridellal/dialer/ContactsEntryAdapter.java:365-368 | the adapter's list becomes the delivered one, whole, and nothing else changes |
| Adapter.ContactsFilter.Filter | app/src/main/java/ru/henridellal/dialer/ContactsEntryAdapter.java:345-368 | after a pass and its publication, the adapter reports the pass's count, and every published result names a cursor row |

## Left out

- The view side is not modelled: `getView`, `onClick`, the highlight spans, the contact image loader and the `ViewCache`. It has no effect on what is found.
- `getItem` and `getItemId` are not modelled. They return constants (`null`, 0).
- `setCursor` closes the old cursor. The model does not capture this, because closing releases resources and has no result the adapter reads.
- Platform and library code is not modelled: `toLowerCase`, `PhoneNumberUtils` behind `formatNumber`, the pinyin library and `RegexQueryResult.compareTo`. Their files are not part of this model, so they are parameters.
- `Filter` runs `performFiltering` on a worker thread and `publishResults` on the UI thread. `ContactsFilter.Filter` runs the two back to back, so concurrency is not modelled. `notifyDataSetChanged` is a UI callback and is left out.
- The keypad resources are regex source strings. The model pairs each one with the set of characters it matches, and takes each fragment to match exactly one of them; no regex parser for the resources is modelled.
- Strategies.FilterWithRegex: requires every query character to be `*`, `#`, `+` (which the code quotes) or a character that the regex syntax takes literally outside a character class (`NumberQuery`). The characters `\ ^ $ . | ? ( ) [ {` would go into the number pattern unquoted and be read as regex syntax, and the model has no interpreter for that syntax. `}` is excluded too: OpenJDK reads a lone `}` as a literal, but ICU, the engine behind Android's `java.util.regex`, rejects it, so its behaviour depends on the platform. Digits, letters, `]`, separators such as `-` or space, and any other character are covered.
- JavaText.IsSpace and JavaText.IsWordChar: `\s` and `\w` (and so `[\W]`) follow OpenJDK's ASCII classes. Android's `java.util.regex` runs on ICU, whose classes differ: ICU's `\s` also holds non-ASCII spaces such as U+00A0 and U+3000 and leaves out U+000B, and ICU's `\w` holds non-ASCII letters, marks and digits. On a device a word start after a no-break space is found, and a gap does not skip a non-ASCII letter or digit in a formatted number; the model does neither.
- Adapter.ContactsFilter.PerformFiltering: requires `NumberQuery` of a non-empty query in regex mode, for the same reason.
- Adapter.ContactsFilter.Filter: requires `NumberQuery` of a non-empty query in regex mode, for the same reason.
- QueryResults.Sort: an insertion sort over the comparator. It is proved to be a permutation and sorted. Stability (`Collections.sort` keeps equal elements in order) is not claimed.
- RegexMatch.NumberFindMeaning: states that the matched text has the pattern's shape and that its start is leftmost. Which end greedy backtracking reaches among several is fixed by `NumberFindFrom`'s definition, not restated as a property.
- Adapter.ContactsFilter.PublishResults: Java hands the same `ArrayList` object to the adapter. The model passes a value, so aliasing of that list, and `resetFilter` clearing it in place, are modelled as replacing the list.
- Java's `String.indexOf` counts UTF-16 code units, and `toLowerCase` may change a string's length. Strings are modelled as sequences of `char`, and spans are offsets into the lower-cased text, as in the code.
