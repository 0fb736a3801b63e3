/** The parts of `java.lang.String` and of `java.util.regex` character classes
    that the filter relies on. */
module JavaText {

  /** Membership in the regex class `\s`, with OpenJDK's ASCII meaning. */
  predicate IsSpace(c: char) {
    c == ' ' || c == '\t' || c == '\n' || c == '\r' || c as int == 0x0B || c as int == 0x0C
  }

  /** Membership in the regex class `\w`, with OpenJDK's ASCII meaning; `\W` is its complement. */
  predicate IsWordChar(c: char) {
    ('a' <= c <= 'z') || ('A' <= c <= 'Z') || ('0' <= c <= '9') || c == '_'
  }

  /** `q` occurs in `t` starting at offset `i`. */
  ghost predicate OccursAt(t: string, q: string, i: int) {
    0 <= i && i + |q| <= |t| && t[i..i + |q|] == q
  }

  ghost predicate Occurs(t: string, q: string) {
    exists i :: OccursAt(t, q, i)
  }

  /** `i` is the first offset at which `q` occurs in `t`. */
  ghost predicate FirstOccurrence(t: string, q: string, i: int) {
    OccursAt(t, q, i) && forall j :: 0 <= j < i ==> !OccursAt(t, q, j)
  }

  /** `String.indexOf(String)` searching from offset `from`. */
  function IndexOfFrom(t: string, q: string, from: nat): (r: int)
    requires from <= |t| + 1
    ensures r == -1 || from <= r
    ensures r >= 0 ==> OccursAt(t, q, r) && forall j :: from <= j < r ==> !OccursAt(t, q, j)
    ensures r == -1 ==> forall j :: from <= j ==> !OccursAt(t, q, j)
    decreases |t| + 1 - from
  {
    if from + |q| > |t| then -1
    else if t[from..from + |q|] == q then from
    else IndexOfFrom(t, q, from + 1)
  }

  /** `String.indexOf(String)`: the first occurrence of `q` in `t`, or -1. */
  function IndexOf(t: string, q: string): (r: int)
    ensures -1 <= r <= |t|
    ensures r >= 0 <==> Occurs(t, q)
    ensures r >= 0 ==> FirstOccurrence(t, q, r)
  {
    var r := IndexOfFrom(t, q, 0);
    assert r >= 0 ==> OccursAt(t, q, r);
    r
  }
}
