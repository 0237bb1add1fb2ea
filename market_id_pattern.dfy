/** The pattern `/market.*?(\d+)/i` that finds a market id in a message,
    as a search function, together with the declarative description of
    the first match that a backtracking regular-expression engine reports. */
module MarketIdPattern {
  import opened Js
  import opened Strings

  const Keyword := "market"

  /** The code points `.` does not match. */
  predicate IsLineTerminator(c: char) {
    c == '\n' || c == '\r' || c == '\U{2028}' || c == '\U{2029}'
  }

  /** The keyword matches at i under the `i` flag: the pattern is ASCII, so each
      position matches exactly the lower- and upper-case form of its letter. */
  predicate KeywordAt(s: string, i: nat) {
    i + |Keyword| <= |s| && Lower(s[i..i + |Keyword|]) == Keyword
  }

  predicate OnOneLine(s: string, from: nat, to: nat) {
    to <= |s| && forall k :: from <= k < to ==> !IsLineTerminator(s[k])
  }

  /** From a keyword at i, `.*?` can stretch to a digit at j. */
  predicate Reaches(s: string, i: nat, j: nat) {
    KeywordAt(s, i) && i + |Keyword| <= j < |s| && IsDigit(s[j]) && OnOneLine(s, i + |Keyword|, j)
  }

  /** The keyword's start and the captured digit run `s[digitsStart..digitsEnd]`. */
  datatype Match = Match(start: nat, digitsStart: nat, digitsEnd: nat)

  /** What the engine reports: the leftmost start at which the pattern matches, the
      shortest `.*?` from there, and the longest `\d+` after it. */
  ghost predicate IsFirstMatch(s: string, m: Match) {
    && Reaches(s, m.start, m.digitsStart)
    && (forall a: nat, j: nat :: a < m.start ==> !Reaches(s, a, j))
    && (forall j: nat :: j < m.digitsStart ==> !Reaches(s, m.start, j))
    && m.digitsStart < m.digitsEnd <= |s|
    && (forall k :: m.digitsStart <= k < m.digitsEnd ==> IsDigit(s[k]))
    && (m.digitsEnd == |s| || !IsDigit(s[m.digitsEnd]))
  }

  /** The lazy `.*?` followed by one digit: the first digit at or after k on the same line. */
  function FirstDigitOnLine(s: string, k: nat): (r: Option<nat>)
    requires k <= |s|
    decreases |s| - k
    ensures r.Some? ==> k <= r.value < |s| && IsDigit(s[r.value]) && OnOneLine(s, k, r.value)
    ensures r.Some? ==> forall x :: k <= x < r.value ==> !IsDigit(s[x])
    ensures r.None? ==> forall j: nat :: k <= j < |s| && IsDigit(s[j]) ==> !OnOneLine(s, k, j)
  {
    if k == |s| || IsLineTerminator(s[k]) then None
    else if IsDigit(s[k]) then Some(k)
    else FirstDigitOnLine(s, k + 1)
  }

  /** The greedy `\d+` from j: the end of the run of digits starting there. */
  function DigitRunEnd(s: string, j: nat): (e: nat)
    requires j <= |s|
    decreases |s| - j
    ensures j <= e <= |s|
    ensures forall k :: j <= k < e ==> IsDigit(s[k])
    ensures e == |s| || !IsDigit(s[e])
  {
    if j < |s| && IsDigit(s[j]) then DigitRunEnd(s, j + 1) else j
  }

  /** The engine's scan: try each start position from i in turn. */
  function FindFrom(s: string, i: nat): (r: Option<Match>)
    requires i <= |s|
    decreases |s| - i
    ensures r.Some? ==> i <= r.value.start && Reaches(s, r.value.start, r.value.digitsStart)
    ensures r.Some? ==> forall a: nat, j: nat :: i <= a < r.value.start ==> !Reaches(s, a, j)
    ensures r.Some? ==> forall j: nat :: j < r.value.digitsStart ==> !Reaches(s, r.value.start, j)
    ensures r.Some? ==> r.value.digitsEnd == DigitRunEnd(s, r.value.digitsStart)
    ensures r.None? ==> forall a: nat, j: nat :: i <= a ==> !Reaches(s, a, j)
  {
    if i + |Keyword| > |s| then None
    else if KeywordAt(s, i) then
      match FirstDigitOnLine(s, i + |Keyword|)
      case Some(j) => Some(Match(i, j, DigitRunEnd(s, j)))
      case None => FindFrom(s, i + 1)
    else FindFrom(s, i + 1)
  }

  function Find(s: string): (r: Option<Match>)
    ensures r.Some? ==> IsFirstMatch(s, r.value)
    ensures r.None? <==> forall a: nat, j: nat :: !Reaches(s, a, j)
  {
    FindFrom(s, 0)
  }

  /** `/market.*?(\d+)/i.test(s)`. */
  predicate Test(s: string)
    ensures Test(s) <==> exists i: nat, j: nat :: Reaches(s, i, j)
  {
    Find(s).Some?
  }

  /** `s.match(/market.*?(\d+)/i)?.[1]`: the captured group, a non-empty run of decimal digits. */
  function MarketId(s: string): (id: Option<string>)
    ensures id.Some? <==> Test(s)
    ensures id.Some? ==> |id.value| > 0 && AllDigits(id.value)
  {
    match Find(s)
    case None => None
    case Some(m) => Some(s[m.digitsStart..m.digitsEnd])
  }

  /** The description of the first match determines it: the scan returns the only one. */
  lemma FirstMatchUnique(s: string, m1: Match, m2: Match)
    requires IsFirstMatch(s, m1) && IsFirstMatch(s, m2)
    ensures m1 == m2
  {
    assert m1.start < m2.start ==> !Reaches(s, m1.start, m1.digitsStart);
    assert m2.start < m1.start ==> !Reaches(s, m2.start, m2.digitsStart);
    assert m1.digitsStart < m2.digitsStart ==> !Reaches(s, m2.start, m1.digitsStart);
    assert m2.digitsStart < m1.digitsStart ==> !Reaches(s, m1.start, m2.digitsStart);
  }

  /** The id is the digit run found on the keyword's line, after it. */
  lemma MarketIdFollowsKeyword(s: string)
    requires Test(s)
    ensures exists i: nat, j: nat :: Reaches(s, i, j) && OccursAt(s, MarketId(s).value, j)
  {
    var m := Find(s).value;
    assert Reaches(s, m.start, m.digitsStart) && OccursAt(s, MarketId(s).value, m.digitsStart);
  }

  /** A successful match implies the `includes("market")` test on the lower-cased text. */
  lemma MatchImpliesKeyword(s: string)
    requires Test(s)
    ensures Contains(Lower(s), Keyword)
  {
    var m := Find(s).value;
    LowerSlice(s, m.start, m.start + |Keyword|);
    assert OccursAt(Lower(s), Keyword, m.start);
  }

  /** Text without a digit never yields an id. */
  lemma NoDigitNoMatch(s: string)
    requires forall k :: 0 <= k < |s| ==> !IsDigit(s[k])
    ensures MarketId(s) == None
  {
  }
}
