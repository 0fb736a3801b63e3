/** The two regular-expression builders of the adapter: the keypad (T9) name
    pattern and the separator-tolerant number pattern, and the keypad table
    they read. Patterns are built as text, exactly as the source's
    `StringBuilder` loops build them; `NameAtoms` and `ParseNumberRegex` say
    what that text denotes. */
module RegexBuilder {
  import opened Values
  import opened JavaText

  /** A keypad fragment from the localized string resources: its regex source
      text and the set of characters it matches. Each fragment is taken to
      match exactly one character drawn from `letters`. */
  datatype Fragment = Fragment(source: string, letters: set<char>)

  /** The string resources `regex_0` .. `regex_9`, `regex_star` and `regex_hash`. */
  datatype Resources = Resources(regexDigits: seq<Fragment>, regexStar: Fragment, regexHash: Fragment)

  /** The table `t9NumberPatterns`: query character to keypad fragment. */
  type Keypad = map<char, Fragment>

  /** `Pattern.quote` of a text that does not contain `\E`. */
  function Quote(s: string): string {
    "\\Q" + s + "\\E"
  }

  /** The fragment stored for `+`: the quoted literal `+`. */
  const PlusFragment: Fragment := Fragment(Quote("+"), {'+'})

  /** The dialer keys that have a keypad fragment. */
  const KeypadKeys: set<char> := {'0', '1', '2', '3', '4', '5', '6', '7', '8', '9', '*', '#', '+'}

  /** Builds the keypad table: one entry per digit, then `*`, `#` and `+`. */
  method InitT9NumberPatterns(res: Resources) returns (m: Keypad)
    requires |res.regexDigits| == 10
    ensures m.Keys == KeypadKeys
    ensures forall c :: '0' <= c <= '9' ==> m[c] == res.regexDigits[c as int - '0' as int]
    ensures m['*'] == res.regexStar && m['#'] == res.regexHash && m['+'] == PlusFragment
  {
    m := map[];
    var i := '0' as int;
    while i <= '9' as int
      invariant '0' as int <= i <= '9' as int + 1
      invariant forall c: char :: c in m <==> '0' as int <= c as int < i
      invariant forall c :: c in m ==> m[c] == res.regexDigits[c as int - '0' as int]
    {
      m := m[i as char := res.regexDigits[i - '0' as int]];
      i := i + 1;
    }
    m := m['*' := res.regexStar]['#' := res.regexHash]['+' := PlusFragment];
    assert forall c: char :: c in m <==> c in KeypadKeys by {
      forall c: char ensures c in m <==> c in KeypadKeys {
        if '0' <= c <= '9' {
          assert c as int in {48, 49, 50, 51, 52, 53, 54, 55, 56, 57};
        }
      }
    }
  }

  // ---------------------------------------------------------------------------
  // Name pattern

  /** The text appended for one query character: its keypad fragment, or the
      text "null" that `StringBuilder.append` writes for a missing entry. */
  function NamePiece(keypad: Keypad, c: char): string {
    if c in keypad then keypad[c].source else "null"
  }

  /** The text of the name pattern for query `s`. */
  function NameRegexText(keypad: Keypad, s: string): string {
    if s == [] then [] else NameRegexText(keypad, s[..|s| - 1]) + NamePiece(keypad, s[|s| - 1])
  }

  /** `formContactNameRegex`: one fragment per query character, in order. */
  method FormContactNameRegex(keypad: Keypad, s: string) returns (r: string)
    ensures r == NameRegexText(keypad, s)
  {
    r := [];
    for i := 0 to |s|
      invariant r == NameRegexText(keypad, s[..i])
    {
      assert s[..i + 1][..i] == s[..i];
      r := r + NamePiece(keypad, s[i]);
    }
    assert s[..|s|] == s;
  }

  /** The name pattern's text is built character by character: the text for a
      concatenated query is the concatenation of the texts. */
  lemma {:induction false} NameRegexTextAppend(keypad: Keypad, s: string, t: string)
    ensures NameRegexText(keypad, s + t) == NameRegexText(keypad, s) + NameRegexText(keypad, t)
    decreases |t|
  {
    if t == [] {
      assert s + t == s;
    } else {
      var t' := t[..|t| - 1];
      var c := t[|t| - 1];
      assert (s + t)[..|s + t| - 1] == s + t';
      assert (s + t)[|s + t| - 1] == c;
      assert NameRegexText(keypad, s + t) == NameRegexText(keypad, s + t') + NamePiece(keypad, c);
      assert NameRegexText(keypad, t) == NameRegexText(keypad, t') + NamePiece(keypad, c);
      NameRegexTextAppend(keypad, s, t');
    }
  }

  /** One element of a name pattern: a keypad letter class, or a literal
      character (the letters of the text "null"). */
  datatype Atom = Class(letters: set<char>) | Lit(c: char)

  predicate AtomAccepts(a: Atom, c: char) {
    match a
    case Class(letters) => c in letters
    case Lit(x) => c == x
  }

  /** What `NamePiece(keypad, c)` denotes as a regular expression. */
  function NamePieceAtoms(keypad: Keypad, c: char): seq<Atom> {
    if c in keypad then [Class(keypad[c].letters)] else [Lit('n'), Lit('u'), Lit('l'), Lit('l')]
  }

  /** What `NameRegexText(keypad, s)` denotes: one atom per matched character. */
  function NameAtoms(keypad: Keypad, s: string): seq<Atom> {
    if s == [] then [] else NameAtoms(keypad, s[..|s| - 1]) + NamePieceAtoms(keypad, s[|s| - 1])
  }

  /** A query made only of keypad keys denotes, position by position, the
      letter class of each key: the pattern has exactly one atom per query
      character. */
  lemma {:induction false} NameAtomsOfKeys(keypad: Keypad, s: string)
    requires forall i :: 0 <= i < |s| ==> s[i] in keypad
    ensures |NameAtoms(keypad, s)| == |s|
    ensures forall i :: 0 <= i < |s| ==> NameAtoms(keypad, s)[i] == Class(keypad[s[i]].letters)
    decreases |s|
  {
    if s != [] {
      NameAtomsOfKeys(keypad, s[..|s| - 1]);
    }
  }

  /** A character without keypad entry is not rejected: it contributes the
      four literal characters of "null" to the pattern. */
  lemma {:induction false} NameAtomsOfUnmapped(keypad: Keypad, s: string, c: char)
    requires c !in keypad
    ensures NameRegexText(keypad, s + [c]) == NameRegexText(keypad, s) + "null"
    ensures NameAtoms(keypad, s + [c]) == NameAtoms(keypad, s) + [Lit('n'), Lit('u'), Lit('l'), Lit('l')]
  {
    assert (s + [c])[..|s + [c]| - 1] == s;
  }

  // ---------------------------------------------------------------------------
  // Number pattern

  /** `isRegexIdentifier`: the keys that `formNumberRegex` quotes. None of them
      is a word character, so the gaps `[\W]*` can absorb them. */
  function IsRegexIdentifier(c: char): (r: bool)
    ensures r ==> !IsWordChar(c) && c in KeypadKeys
  {
    c == '*' || c == '#' || c == '+'
  }

  /** The gap placed between consecutive query characters. */
  const Gap: string := "[\\W]*"

  /** The text appended for one query character. */
  function NumberAtomText(c: char): string {
    if IsRegexIdentifier(c) then Quote([c]) else [c]
  }

  /** The text of the number pattern for a non-empty query `s`. */
  function NumberRegexText(s: string): string
    requires |s| > 0
  {
    if |s| == 1 then NumberAtomText(s[0])
    else NumberRegexText(s[..|s| - 1]) + Gap + NumberAtomText(s[|s| - 1])
  }

  /** `formNumberRegex`: the first character, then for each later character a
      gap and that character. `charAt(0)` makes a non-empty query mandatory. */
  method FormNumberRegex(s: string) returns (r: string)
    requires |s| > 0
    ensures r == NumberRegexText(s)
  {
    r := NumberAtomText(s[0]);
    for i := 1 to |s|
      invariant r == NumberRegexText(s[..i])
    {
      assert s[..i + 1][..i] == s[..i];
      r := r + Gap;
      r := r + NumberAtomText(s[i]);
    }
    assert s[..|s|] == s;
  }

  /** The characters that are not plain literals outside a character class:
      the regex syntax characters, without `]`, which a pattern outside a class
      takes literally. `}` stays here: Android's engine rejects a lone `}`. */
  predicate RegexMeta(c: char) {
    c in "\\^$.|?*+()[{}"
  }

  /** Queries whose number pattern is a plain sequence of literals: every
      character is a quoted key or one the regex syntax takes literally. */
  predicate NumberQuery(s: string) {
    forall i :: 0 <= i < |s| ==> IsRegexIdentifier(s[i]) || !RegexMeta(s[i])
  }

  /** `r` ends with a quoted literal `\Q c \E`. */
  predicate EndsWithQuoted(r: string) {
    |r| >= 5 && r[|r| - 5] == '\\' && r[|r| - 4] == 'Q' && r[|r| - 2] == '\\' && r[|r| - 1] == 'E'
  }

  /** `r` ends with the gap `[\W]*`. */
  predicate EndsWithGap(r: string) {
    |r| >= 5 && r[|r| - 5] == '[' && r[|r| - 4] == '\\' && r[|r| - 3] == 'W' && r[|r| - 2] == ']' && r[|r| - 1] == '*'
  }

  /** Reads a number pattern's text back, from its end: a quoted or plain
      literal, preceded by a gap unless it is the first. */
  function ParseNumberRegex(r: string): (p: Option<string>)
    decreases |r|
  {
    if |r| == 0 then None
    else
      var atom := if EndsWithQuoted(r) then r[|r| - 3] else r[|r| - 1];
      var rest := if EndsWithQuoted(r) then r[..|r| - 5] else r[..|r| - 1];
      if rest == [] then Some([atom])
      else if EndsWithGap(rest) then
        match ParseNumberRegex(rest[..|rest| - 5])
        case Some(p) => Some(p + [atom])
        case None => None
      else None
  }

  /** Reading back one literal that follows a non-empty pattern and a gap. */
  lemma ParseNumberRegexStep(r: string, c: char, p: string)
    requires ParseNumberRegex(r) == Some(p)
    ensures ParseNumberRegex(r + Gap + NumberAtomText(c)) == Some(p + [c])
  {
    var a := NumberAtomText(c);
    var t := r + Gap + a;
    var rest := r + Gap;
    if IsRegexIdentifier(c) {
      assert EndsWithQuoted(t) && t[|t| - 3] == c;
      assert t[..|t| - 5] == rest;
    } else {
      assert !EndsWithQuoted(t) && t[|t| - 1] == c;
      assert t[..|t| - 1] == rest;
    }
    assert EndsWithGap(rest);
    assert rest[..|rest| - 5] == r;
  }

  lemma ParseNumberRegexSingle(c: char)
    ensures ParseNumberRegex(NumberAtomText(c)) == Some([c])
  {
  }

  lemma SnocLast(s: string)
    requires |s| > 0
    ensures s[..|s| - 1] + [s[|s| - 1]] == s
  {
  }

  lemma NumberRegexRoundTripStep(s: string)
    requires |s| > 1
    requires ParseNumberRegex(NumberRegexText(s[..|s| - 1])) == Some(s[..|s| - 1])
    ensures ParseNumberRegex(NumberRegexText(s)) == Some(s)
  {
    SnocLast(s);
    ParseNumberRegexStep(NumberRegexText(s[..|s| - 1]), s[|s| - 1], s[..|s| - 1]);
  }

  /** Removing the gaps and the quote markers from the number pattern gives
      back the query, whatever its characters. */
  lemma {:induction false} NumberRegexRoundTrip(s: string)
    requires |s| > 0
    ensures ParseNumberRegex(NumberRegexText(s)) == Some(s)
    decreases |s|
  {
    var c := s[|s| - 1];
    if |s| == 1 {
      ParseNumberRegexSingle(c);
      assert [c] == s;
    } else {
      NumberRegexRoundTrip(s[..|s| - 1]);
      NumberRegexRoundTripStep(s);
    }
  }

  /** The number of characters of `s` that `formNumberRegex` quotes. */
  function CountIdentifiers(s: string): nat {
    if s == [] then 0
    else CountIdentifiers(s[..|s| - 1]) + (if IsRegexIdentifier(s[|s| - 1]) then 1 else 0)
  }

  /** The pattern holds one character per query character, four quote
      characters per quoted key and `|s| - 1` gaps of five characters. */
  lemma {:induction false} NumberRegexLength(s: string)
    requires |s| > 0
    ensures |NumberRegexText(s)| == |s| + 4 * CountIdentifiers(s) + 5 * (|s| - 1)
    decreases |s|
  {
    if |s| > 1 {
      NumberRegexLength(s[..|s| - 1]);
    }
  }
}
