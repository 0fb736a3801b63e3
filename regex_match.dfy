/** `java.util.regex` matching for the two pattern shapes the adapter builds:
    the keypad name pattern (one atom per character, optionally after `\s+`)
    and the number pattern (literals separated by greedy `[\W]*` gaps). The
    searches follow `Matcher.find`: the leftmost start wins, and greedy
    quantifiers try the longest run first and back off one character at a time. */
module RegexMatch {
  import opened Values
  import opened JavaText
  import opened RegexBuilder

  // ---------------------------------------------------------------------------
  // Name pattern

  /** The name pattern matches `name` at offset `i`. */
  predicate NameMatchesAt(atoms: seq<Atom>, name: string, i: int) {
    0 <= i && i + |atoms| <= |name| && forall k :: 0 <= k < |atoms| ==> AtomAccepts(atoms[k], name[i + k])
  }

  /** `Matcher.find` for the name pattern, starting the search at `from`. */
  function NameFindFrom(atoms: seq<Atom>, name: string, from: nat): (r: Option<nat>)
    ensures r.Some? ==> from <= r.value && NameMatchesAt(atoms, name, r.value)
    ensures r.Some? ==> forall j :: from <= j < r.value ==> !NameMatchesAt(atoms, name, j)
    ensures r.None? ==> forall j :: from <= j ==> !NameMatchesAt(atoms, name, j)
    decreases |name| + 1 - from
  {
    if from + |atoms| > |name| then None
    else if NameMatchesAt(atoms, name, from) then Some(from)
    else NameFindFrom(atoms, name, from + 1)
  }

  /** The length of the run of `\s` characters starting at `j`. */
  function SpaceRun(t: string, j: nat): (n: nat)
    requires j <= |t|
    ensures j + n <= |t|
    ensures forall m :: j <= m < j + n ==> IsSpace(t[m])
    ensures j + n == |t| || !IsSpace(t[j + n])
    decreases |t| - j
  {
    if j < |t| && IsSpace(t[j]) then 1 + SpaceRun(t, j + 1) else 0
  }

  /** `\s+` taken `k` times from `j`, followed by the name pattern, matches. */
  ghost predicate WordStartWitness(atoms: seq<Atom>, name: string, j: int, k: int) {
    0 <= j && 1 <= k && j + k <= |name|
    && (forall m :: j <= m < j + k ==> IsSpace(name[m]))
    && NameMatchesAt(atoms, name, j + k)
  }

  /** Greedy backtracking of `\s+`: try `n`, `n - 1`, ..., 1 whitespace characters. */
  function WordStartTry(atoms: seq<Atom>, name: string, j: nat, n: nat): (k: Option<nat>)
    ensures k.Some? ==> 1 <= k.value <= n && NameMatchesAt(atoms, name, j + k.value)
    ensures k.Some? ==> forall m :: j + k.value < m <= j + n ==> !NameMatchesAt(atoms, name, m)
    ensures k.None? ==> forall m :: j + 1 <= m <= j + n ==> !NameMatchesAt(atoms, name, m)
  {
    if n == 0 then None
    else if NameMatchesAt(atoms, name, j + n) then Some(n)
    else WordStartTry(atoms, name, j, n - 1)
  }

  /** `\s+` followed by the name pattern, attempted at offset `j`: the number of
      whitespace characters the match uses, or `None`. The run used is the
      longest one that lets the pattern match. */
  function WordStartAt(atoms: seq<Atom>, name: string, j: nat): (k: Option<nat>)
    requires j <= |name|
    ensures k.Some? ==> WordStartWitness(atoms, name, j, k.value)
    ensures k.Some? ==> forall m :: k.value < m ==> !WordStartWitness(atoms, name, j, m)
    ensures k.None? ==> forall m :: !WordStartWitness(atoms, name, j, m)
  {
    var run := SpaceRun(name, j);
    var k := WordStartTry(atoms, name, j, run);
    assert forall m :: WordStartWitness(atoms, name, j, m) ==> m <= run by {
      forall m | WordStartWitness(atoms, name, j, m) ensures m <= run {
      }
    }
    k
  }

  /** `Matcher.find` for `\s+` followed by the name pattern, from `from`. */
  function WordStartFindFrom(atoms: seq<Atom>, name: string, from: nat): (r: Option<Span>)
    requires from <= |name| + 1
    ensures r.Some? ==> (from <= r.value.start
      && WordStartWitness(atoms, name, r.value.start, r.value.end - r.value.start - |atoms|)
      && (forall m :: r.value.end - r.value.start - |atoms| < m ==> !WordStartWitness(atoms, name, r.value.start, m)))
    ensures r.Some? ==> forall j, m :: from <= j < r.value.start ==> !WordStartWitness(atoms, name, j, m)
    ensures r.None? ==> forall j, m :: from <= j ==> !WordStartWitness(atoms, name, j, m)
    decreases |name| + 1 - from
  {
    if from > |name| then None
    else match WordStartAt(atoms, name, from)
      case Some(k) => Some(Span(from, from + k + |atoms|))
      case None => WordStartFindFrom(atoms, name, from + 1)
  }

  /** `sp` starts at the leftmost whitespace run that a match of the name
      pattern follows, and takes that run as long as it can be. */
  ghost predicate FirstWordStart(atoms: seq<Atom>, name: string, sp: Span) {
    && WordStartWitness(atoms, name, sp.start, sp.end - sp.start - |atoms|)
    && (forall j, m :: 0 <= j < sp.start ==> !WordStartWitness(atoms, name, j, m))
    && (forall m :: sp.end - sp.start - |atoms| < m ==> !WordStartWitness(atoms, name, sp.start, m))
  }

  /** The name part of `filterWithRegex`: a match at offset 0 is taken as it
      is; otherwise, if the pattern occurs at all, the first `\s+`-prefixed
      match is taken, its span starting at the whitespace. */
  function NameHit(atoms: seq<Atom>, name: string): Option<Span> {
    match NameFindFrom(atoms, name, 0)
    case None => None
    case Some(i) => if i == 0 then Some(Span(0, |atoms|)) else WordStartFindFrom(atoms, name, 0)
  }

  /** Only a prefix match or a match right after whitespace counts: a name hit
      exists exactly when one of them exists, and a mid-word occurrence alone
      gives none. */
  lemma NameHitExists(atoms: seq<Atom>, name: string)
    ensures NameHit(atoms, name).Some? <==>
      NameMatchesAt(atoms, name, 0) || exists j, k :: WordStartWitness(atoms, name, j, k)
  {
  }

  /** The span of a name hit: `[0, |pattern|)` for a prefix match; otherwise the
      first whitespace run followed by a match, taken as long as it can be. */
  lemma NameHitSpan(atoms: seq<Atom>, name: string)
    requires NameHit(atoms, name).Some?
    ensures NameMatchesAt(atoms, name, 0) ==> NameHit(atoms, name) == Some(Span(0, |atoms|))
    ensures !NameMatchesAt(atoms, name, 0) ==> FirstWordStart(atoms, name, NameHit(atoms, name).value)
  {
    if !NameMatchesAt(atoms, name, 0) {
      var sp := WordStartFindFrom(atoms, name, 0);
      assert NameHit(atoms, name) == sp;
    }
  }

  // ---------------------------------------------------------------------------
  // Number pattern

  /** The length of the run of `\W` characters starting at `p`. */
  function NonWordRun(t: string, p: nat): (n: nat)
    requires p <= |t|
    ensures p + n <= |t|
    ensures forall m :: p <= m < p + n ==> !IsWordChar(t[m])
    ensures p + n == |t| || IsWordChar(t[p + n])
    decreases |t| - p
  {
    if p < |t| && !IsWordChar(t[p]) then 1 + NonWordRun(t, p + 1) else 0
  }

  /** Matches the rest of the number pattern, `[\W]*q[k] [\W]*q[k+1] ...`, at
      offset `p`; returns where the match ends. */
  function MatchRest(q: string, k: nat, s: string, p: nat): (e: Option<nat>)
    requires k <= |q| && p <= |s|
    ensures e.Some? ==> p <= e.value <= |s|
    decreases |q| - k, |s| + 1
  {
    if k == |q| then Some(p) else TryGap(q, k, s, p, NonWordRun(s, p))
  }

  /** Greedy backtracking of the gap before `q[k]`: `n`, `n - 1`, ..., 0
      separator characters, the first choice that completes the match wins. */
  function TryGap(q: string, k: nat, s: string, p: nat, n: nat): (e: Option<nat>)
    requires k < |q| && p + n <= |s|
    ensures e.Some? ==> p < e.value <= |s|
    decreases |q| - k, n
  {
    var r := if p + n < |s| && s[p + n] == q[k] then MatchRest(q, k + 1, s, p + n + 1) else None;
    if r.Some? then r else if n == 0 then None else TryGap(q, k, s, p, n - 1)
  }

  /** The number pattern attempted at offset `i`. */
  function NumberMatchAt(q: string, s: string, i: nat): (e: Option<nat>)
    requires |q| > 0 && i <= |s|
    ensures e.Some? ==> i < e.value <= |s|
  {
    if i < |s| && s[i] == q[0] then MatchRest(q, 1, s, i + 1) else None
  }

  ghost predicate AllNonWord(t: string) {
    forall m :: 0 <= m < |t| ==> !IsWordChar(t[m])
  }

  /** `t` is `q[k..]` with a (possibly empty) run of non-word characters before
      each of its characters. */
  ghost predicate GappedFrom(q: string, k: nat, t: string)
    requires k <= |q|
    decreases |q| - k
  {
    if k == |q| then t == []
    else exists n :: 0 <= n < |t| && AllNonWord(t[..n]) && t[n] == q[k] && GappedFrom(q, k + 1, t[n + 1..])
  }

  /** `t` is text the number pattern for `q` matches: `q`'s characters in order,
      separated by runs of non-word characters. */
  ghost predicate NumberText(q: string, t: string) {
    |q| > 0 && |t| > 0 && t[0] == q[0] && GappedFrom(q, 1, t[1..])
  }

  /** What the backtracking search finds is text of the pattern's shape. */
  lemma {:induction false} MatchRestSound(q: string, k: nat, s: string, p: nat)
    requires k <= |q| && p <= |s|
    requires MatchRest(q, k, s, p).Some?
    ensures GappedFrom(q, k, s[p..MatchRest(q, k, s, p).value])
    decreases |q| - k, |s| + 1
  {
    if k < |q| {
      TryGapSound(q, k, s, p, NonWordRun(s, p));
    }
  }

  lemma {:induction false} TryGapSound(q: string, k: nat, s: string, p: nat, n: nat)
    requires k < |q| && p + n <= |s|
    requires forall m :: p <= m < p + n ==> !IsWordChar(s[m])
    requires TryGap(q, k, s, p, n).Some?
    ensures GappedFrom(q, k, s[p..TryGap(q, k, s, p, n).value])
    decreases |q| - k, n
  {
    var e := TryGap(q, k, s, p, n).value;
    if p + n < |s| && s[p + n] == q[k] && MatchRest(q, k + 1, s, p + n + 1).Some? {
      MatchRestSound(q, k + 1, s, p + n + 1);
      var t := s[p..e];
      assert t[..n] == s[p..p + n];
      assert t[n + 1..] == s[p + n + 1..e];
      assert AllNonWord(t[..n]);
    } else {
      TryGapSound(q, k, s, p, n - 1);
    }
  }

  /** The backtracking search misses no gap choice: whenever some text of the
      pattern's shape starts at `p`, it finds a match. */
  lemma {:induction false} MatchRestComplete(q: string, k: nat, s: string, p: nat, e: nat)
    requires k <= |q| && p <= e <= |s|
    requires GappedFrom(q, k, s[p..e])
    ensures MatchRest(q, k, s, p).Some?
    decreases |q| - k
  {
    if k < |q| {
      var n := GappedStep(q, k, s, p, e);
      MatchRestComplete(q, k + 1, s, p + n + 1, e);
      var run := NonWordRun(s, p);
      TryGapReaches(q, k, s, p, run, n);
    }
  }

  /** Unfolds one step of `GappedFrom` on a slice of `s`. */
  lemma GappedStep(q: string, k: nat, s: string, p: nat, e: nat) returns (n: nat)
    requires k < |q| && p <= e <= |s|
    requires GappedFrom(q, k, s[p..e])
    ensures p + n < e && s[p + n] == q[k] && GappedFrom(q, k + 1, s[p + n + 1..e])
    ensures forall m :: p <= m < p + n ==> !IsWordChar(s[m])
  {
    var t := s[p..e];
    n := GappedUnfold(q, k, t);
    assert t[n + 1..] == s[p + n + 1..e];
    forall m | p <= m < p + n ensures !IsWordChar(s[m]) {
      assert t[..n][m - p] == t[m - p] == s[m];
    }
  }

  lemma GappedUnfold(q: string, k: nat, t: string) returns (n: nat)
    requires k < |q| && GappedFrom(q, k, t)
    ensures n < |t| && AllNonWord(t[..n]) && t[n] == q[k] && GappedFrom(q, k + 1, t[n + 1..])
  {
    n :| 0 <= n < |t| && AllNonWord(t[..n]) && t[n] == q[k] && GappedFrom(q, k + 1, t[n + 1..]);
  }

  lemma {:induction false} TryGapReaches(q: string, k: nat, s: string, p: nat, m: nat, n: nat)
    requires k < |q| && p + m <= |s| && n <= m
    requires p + n < |s| && s[p + n] == q[k] && MatchRest(q, k + 1, s, p + n + 1).Some?
    ensures TryGap(q, k, s, p, m).Some?
    decreases m
  {
    if m > n {
      TryGapReaches(q, k, s, p, m - 1, n);
    }
  }

  /** `Matcher.find` for the number pattern, starting the search at `from`:
      the leftmost start, and the end the backtracking search reaches there. */
  function NumberFindFrom(q: string, s: string, from: nat): (r: Option<Span>)
    requires |q| > 0 && from <= |s| + 1
    ensures r.Some? ==> (from <= r.value.start < r.value.end <= |s|
      && NumberMatchAt(q, s, r.value.start) == Some(r.value.end))
    ensures r.Some? ==> forall j :: from <= j < r.value.start ==> NumberMatchAt(q, s, j).None?
    ensures r.None? ==> forall j :: from <= j <= |s| ==> NumberMatchAt(q, s, j).None?
    decreases |s| + 1 - from
  {
    if from > |s| then None
    else match NumberMatchAt(q, s, from)
      case Some(e) => Some(Span(from, e))
      case None => NumberFindFrom(q, s, from + 1)
  }

  /** The number pattern at one offset: a match exists exactly when some text of
      the pattern's shape starts there, and the text it matches has that shape. */
  lemma NumberMatchAtMeaning(q: string, s: string, i: nat)
    requires |q| > 0 && i <= |s|
    ensures NumberMatchAt(q, s, i).Some? ==> NumberText(q, s[i..NumberMatchAt(q, s, i).value])
    ensures NumberMatchAt(q, s, i).None? ==> forall e :: i <= e <= |s| ==> !NumberText(q, s[i..e])
  {
    if NumberMatchAt(q, s, i).Some? {
      var e := NumberMatchAt(q, s, i).value;
      MatchRestSound(q, 1, s, i + 1);
      assert s[i..e][1..] == s[i + 1..e];
    } else {
      forall e | i <= e <= |s| ensures !NumberText(q, s[i..e]) {
        if NumberText(q, s[i..e]) {
          assert s[i..e][1..] == s[i + 1..e];
          MatchRestComplete(q, 1, s, i + 1, e);
        }
      }
    }
  }

  /** `find` on the number pattern: the reported span is text of the pattern's
      shape, no such text starts further left, and `None` means the number
      holds no such text at all. */
  lemma NumberFindMeaning(q: string, s: string)
    requires |q| > 0
    ensures NumberFindFrom(q, s, 0).Some? ==>
      var sp := NumberFindFrom(q, s, 0).value;
      && NumberText(q, s[sp.start..sp.end])
      && forall j, e :: 0 <= j < sp.start && j <= e <= |s| ==> !NumberText(q, s[j..e])
    ensures NumberFindFrom(q, s, 0).None? ==>
      forall j, e :: 0 <= j <= e <= |s| ==> !NumberText(q, s[j..e])
  {
    var r := NumberFindFrom(q, s, 0);
    if r.Some? {
      NumberMatchAtMeaning(q, s, r.value.start);
    }
    forall j, e | 0 <= j <= e <= |s| && (r.None? || j < r.value.start) ensures !NumberText(q, s[j..e]) {
      NumberMatchAtMeaning(q, s, j);
    }
  }

  /** The characters of `t` that are word characters, in order. */
  function WordChars(t: string): string {
    if t == [] then [] else (if IsWordChar(t[0]) then [t[0]] else []) + WordChars(t[1..])
  }

  lemma {:induction false} WordCharsSkip(t: string, n: nat)
    requires n <= |t| && AllNonWord(t[..n])
    ensures WordChars(t) == WordChars(t[n..])
    decreases n
  {
    if n > 0 {
      assert t[..n][0] == t[0];
      assert t[1..][..n - 1] == t[..n][1..];
      WordCharsSkip(t[1..], n - 1);
      assert t[1..][n - 1..] == t[n..];
    }
  }

  /** For a query of word characters only (digits, say), the separators are the
      only thing the pattern skips: dropping non-word characters from the
      matched text gives back the query. */
  lemma {:induction false} GappedWordChars(q: string, k: nat, t: string)
    requires k <= |q| && GappedFrom(q, k, t)
    requires forall i :: 0 <= i < |q| ==> IsWordChar(q[i])
    ensures WordChars(t) == q[k..]
    decreases |q| - k
  {
    if k < |q| {
      var n := GappedUnfold(q, k, t);
      WordCharsSkip(t, n);
      GappedWordChars(q, k + 1, t[n + 1..]);
      WordCharsHead(t, n, q[k]);
      SuffixCons(q, k);
    }
  }

  lemma WordCharsHead(t: string, n: nat, c: char)
    requires n < |t| && t[n] == c && IsWordChar(c)
    ensures WordChars(t[n..]) == [c] + WordChars(t[n + 1..])
  {
    assert t[n..][1..] == t[n + 1..];
  }

  lemma SuffixCons(q: string, k: nat)
    requires k < |q|
    ensures q[k..] == [q[k]] + q[k + 1..]
  {
  }

  lemma NumberTextWordChars(q: string, t: string)
    requires NumberText(q, t)
    requires forall i :: 0 <= i < |q| ==> IsWordChar(q[i])
    ensures WordChars(t) == q
  {
    GappedWordChars(q, 1, t[1..]);
    assert q == [q[0]] + q[1..];
  }
}
