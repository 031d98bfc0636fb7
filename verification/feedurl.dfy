/** Discovery of the data-feed URL: a leftmost search of the script text
    for the regular expression `/book_data.php\?h=\w+`, written out as a
    matcher for this one pattern. The unescaped `.` matches any character
    except a newline, and `\w+` takes the longest run of word characters. */
module FeedUrl {
  import opened Wrappers
  import opened Core

  /** The fixed origin the matched path is appended to. */
  const Origin := "https://kox.moe"

  /** The literal text before the `.` wildcard. */
  const Head := "/book_data"
  /** The literal text between the wildcard and `\w+` (`\?` is a plain `?`). */
  const Query := "php?h="
  /** Index of the wildcard in a match. */
  const WildcardAt := |Head|
  /** Characters matched before the word run: Head, the wildcard, Query. */
  const FixedLength := |Head| + 1 + |Query|

  /** `\w`, restricted to ASCII letters, digits and underscore. */
  predicate IsWordChar(c: char)
  {
    ('a' <= c <= 'z') || ('A' <= c <= 'Z') || ('0' <= c <= '9') || c == '_'
  }

  /** `.` without the DOTALL flag. */
  predicate IsWildcardChar(c: char)
  {
    c != '\n'
  }

  /** The pattern can start matching at index `i` of `s`: the fixed part
      matches there and at least one word character follows it. */
  predicate MatchesAt(s: string, i: nat)
  {
    && i + FixedLength < |s|
    && s[i..i + WildcardAt] == Head
    && IsWildcardChar(s[i + WildcardAt])
    && s[i + WildcardAt + 1..i + FixedLength] == Query
    && IsWordChar(s[i + FixedLength])
  }

  /** A whole string the pattern matches: the fixed part and then only
      word characters, at least one. */
  predicate IsFeedPath(t: string)
  {
    MatchesAt(t, 0) && forall k :: FixedLength <= k < |t| ==> IsWordChar(t[k])
  }

  /** Length of the longest run of word characters starting at `j`. */
  function WordRun(s: string, j: nat): (n: nat)
    requires j <= |s|
    ensures j + n <= |s|
    ensures forall k :: j <= k < j + n ==> IsWordChar(s[k])
    ensures j + n == |s| || !IsWordChar(s[j + n])
    decreases |s| - j
  {
    if j < |s| && IsWordChar(s[j]) then 1 + WordRun(s, j + 1) else 0
  }

  /** The first index at or after `i` where the pattern matches. */
  function SearchFrom(s: string, i: nat): (r: Option<nat>)
    requires i <= |s|
    ensures r.Some? ==> i <= r.value && MatchesAt(s, r.value)
    ensures r.Some? ==> forall j :: i <= j < r.value ==> !MatchesAt(s, j)
    ensures r.None? ==> forall j :: i <= j ==> !MatchesAt(s, j)
    decreases |s| - i
  {
    if MatchesAt(s, i) then Some(i)
    else if i == |s| then None
    else SearchFrom(s, i + 1)
  }

  /** Where a match lies in the searched text: `s[start..end]`. */
  datatype Span = Span(start: nat, end: nat)

  /** `re.search`: the leftmost match, extended over the longest run of
      word characters. */
  function Search(s: string): (m: Option<Span>)
    ensures m.None? <==> forall i :: !MatchesAt(s, i)
    ensures m.Some? ==> && m.value.start < m.value.end <= |s|
                        && MatchesAt(s, m.value.start)
                        && (forall j :: 0 <= j < m.value.start ==> !MatchesAt(s, j))
                        && IsFeedPath(s[m.value.start..m.value.end])
                        && (m.value.end == |s| || !IsWordChar(s[m.value.end]))
  {
    match SearchFrom(s, 0)
    case None => None
    case Some(i) =>
      var end := i + FixedLength + WordRun(s, i + FixedLength);
      MatchedSliceIsPath(s, i, end);
      Some(Span(i, end))
  }

  /** A match start followed by word characters up to `end` delimits a
      feed path. */
  lemma MatchedSliceIsPath(s: string, i: nat, end: nat)
    requires MatchesAt(s, i) && i + FixedLength < end <= |s|
    requires forall k :: i + FixedLength <= k < end ==> IsWordChar(s[k])
    ensures IsFeedPath(s[i..end])
  {
    var t := s[i..end];
    assert forall k :: 0 <= k < |t| ==> t[k] == s[i + k];
    assert t[..WildcardAt] == s[i..i + WildcardAt];
    assert t[WildcardAt + 1..FixedLength] == s[i + WildcardAt + 1..i + FixedLength];
  }

  /** The absolute feed URL found in a script: the origin followed by the
      matched text; fails when the pattern does not occur. */
  function FindFeedUrl(script: string): (r: Result<string, Error>)
    ensures r.Err? <==> forall i :: !MatchesAt(script, i)
    ensures r.Err? ==> r.error == PatternNotMatched
    ensures r.Ok? ==> |r.value| > |Origin| && r.value[..|Origin|] == Origin
    ensures r.Ok? ==> IsFeedPath(r.value[|Origin|..])
    ensures r.Ok? ==> Search(script).Some?
    ensures r.Ok? ==> r.value == Origin + script[Search(script).value.start..Search(script).value.end]
  {
    match Search(script)
    case None => Err(PatternNotMatched)
    case Some(m) =>
      var url := Origin + script[m.start..m.end];
      assert url[|Origin|..] == script[m.start..m.end];
      Ok(url)
  }

  /** A text that is itself a feed path is matched whole, from its start. */
  lemma SearchWholePath(t: string)
    requires IsFeedPath(t)
    ensures Search(t) == Some(Span(0, |t|))
  {
  }

  /** The `.` before `php` is not escaped: any character but a newline may
      stand there, and such a path is still found whole. */
  lemma WildcardMatchesAnyChar(c: char, token: string)
    requires c != '\n'
    requires |token| >= 1 && forall k :: 0 <= k < |token| ==> IsWordChar(token[k])
    ensures IsFeedPath(Head + [c] + Query + token)
    ensures Search(Head + [c] + Query + token) == Some(Span(0, FixedLength + |token|))
  {
    var t := Head + [c] + Query + token;
    assert t[..WildcardAt] == Head;
    assert t[WildcardAt + 1..FixedLength] == Query;
    assert forall k :: FixedLength <= k < |t| ==> t[k] == token[k - FixedLength];
    SearchWholePath(t);
  }
}
