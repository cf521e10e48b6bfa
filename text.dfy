/** The few Python string operations the core relies on, over `seq<char>`. */
module Text {

  /** Python's `needle in haystack` for strings. */
  predicate Contains(haystack: string, needle: string)
    decreases |haystack|
  {
    needle <= haystack || (haystack != [] && Contains(haystack[1..], needle))
  }

  /** A needle whose first character never occurs in the haystack is not in it. */
  lemma {:induction false} FirstCharAbsent(haystack: string, needle: string)
    requires needle != [] && needle[0] !in haystack
    ensures !Contains(haystack, needle)
    decreases |haystack|
  {
    if haystack != [] {
      assert haystack[0] != needle[0];
      FirstCharAbsent(haystack[1..], needle);
    }
  }

  /** ASCII lower-casing of one character (Python's `str.lower` restricted to ASCII letters). */
  function LowerChar(c: char): char {
    if 'A' <= c <= 'Z' then (c as int + 32) as char else c
  }

  function Lower(s: string): (r: string)
    ensures |r| == |s|
    ensures forall i :: 0 <= i < |s| ==> r[i] == LowerChar(s[i])
  {
    seq(|s|, i requires 0 <= i < |s| => LowerChar(s[i]))
  }

  /** Python's `s.split(sep)` for a one-character separator: never empty, and empty pieces are kept. */
  function Split(s: string, sep: char): (r: seq<string>)
    ensures |r| >= 1
    ensures forall k :: 0 <= k < |r| ==> sep !in r[k]
    ensures Join(r, sep) == s
  {
    if s == [] then [[]]
    else if s[0] == sep then
      var rest := Split(s[1..], sep);
      assert s == [sep] + s[1..];
      [[]] + rest
    else
      var rest := Split(s[1..], sep);
      assert s == [s[0]] + s[1..];
      JoinConsHead(s[0], rest, sep);
      [[s[0]] + rest[0]] + rest[1..]
  }

  /** Python's `sep.join(parts)`. */
  function Join(parts: seq<string>, sep: char): string {
    if parts == [] then []
    else if |parts| == 1 then parts[0]
    else parts[0] + [sep] + Join(parts[1..], sep)
  }

  lemma JoinConsHead(c: char, parts: seq<string>, sep: char)
    requires |parts| >= 1
    ensures Join([[c] + parts[0]] + parts[1..], sep) == [c] + Join(parts, sep)
  {
    var q := [[c] + parts[0]] + parts[1..];
    if |parts| > 1 {
      assert q[1..] == parts[1..];
    }
  }

  /** Splitting a join gives the pieces back, when no piece contains the separator. */
  lemma {:induction false} SplitJoin(parts: seq<string>, sep: char)
    requires |parts| >= 1
    requires forall k :: 0 <= k < |parts| ==> sep !in parts[k]
    ensures Split(Join(parts, sep), sep) == parts
    decreases |parts|, |parts[0]|
  {
    if |parts[0]| > 0 {
      var p := parts[0];
      var q := [p[1..]] + parts[1..];
      assert q[1..] == parts[1..];
      SplitJoin(q, sep);
      JoinConsHead(p[0], q, sep);
      assert [p[0]] + q[0] == p;
      assert [[p[0]] + q[0]] + q[1..] == parts;
      assert Join(parts, sep) == [p[0]] + Join(q, sep);
    } else if |parts| > 1 {
      SplitJoin(parts[1..], sep);
      var j := Join(parts, sep);
      assert j == [sep] + Join(parts[1..], sep);
      assert j[1..] == Join(parts[1..], sep);
      assert [[]] + parts[1..] == parts;
    }
  }

  /** Joining two non-empty lists joins their joins. */
  lemma {:induction false} JoinAppend(a: seq<string>, b: seq<string>, sep: char)
    requires |a| >= 1 && |b| >= 1
    ensures Join(a + b, sep) == Join(a, sep) + [sep] + Join(b, sep)
    decreases |a|
  {
    if |a| == 1 {
      assert (a + b)[1..] == b;
    } else {
      JoinAppend(a[1..], b, sep);
      assert (a + b)[1..] == a[1..] + b;
    }
  }

  /** Splitting at a separator splits the two sides independently. */
  lemma SplitAppend(a: string, b: string, sep: char)
    requires sep !in a
    ensures Split(a + [sep] + b, sep) == [a] + Split(b, sep)
  {
    var pa := [a] + Split(b, sep);
    assert Join(pa, sep) == a + [sep] + b;
    SplitJoin(pa, sep);
  }

  /** Index of the first occurrence of `x` (Python's `list.index`). */
  function IndexOf<T(==)>(s: seq<T>, x: T): (k: nat)
    requires x in s
    ensures k < |s| && s[k] == x
    ensures forall j :: 0 <= j < k ==> s[j] != x
  {
    if s[0] == x then 0 else 1 + IndexOf(s[1..], x)
  }

  /** Python's `s.replace(old, "")`: occurrences are removed left to right, without overlap. */
  function RemoveAll(s: string, pattern: string): (r: string)
    requires |pattern| > 0
    ensures |r| <= |s|
    decreases |s|
  {
    if |s| < |pattern| then s
    else if pattern <= s then RemoveAll(s[|pattern|..], pattern)
    else [s[0]] + RemoveAll(s[1..], pattern)
  }

  /** A string with no occurrence of the pattern is left as it is. */
  lemma {:induction false} RemoveAllAbsent(s: string, pattern: string)
    requires |pattern| > 0 && !Contains(s, pattern)
    ensures RemoveAll(s, pattern) == s
    decreases |s|
  {
    if |s| >= |pattern| {
      assert !(pattern <= s);
      RemoveAllAbsent(s[1..], pattern);
      assert s == [s[0]] + s[1..];
    }
  }

  /** Removing every occurrence from `stem + pattern` leaves `stem` when the pattern occurs only as that suffix. */
  lemma {:induction false} RemoveAllSuffix(stem: string, pattern: string)
    requires |pattern| > 0
    requires forall k :: 0 <= k < |stem| ==> !(pattern <= (stem + pattern)[k..])
    ensures RemoveAll(stem + pattern, pattern) == stem
    decreases |stem|
  {
    var s := stem + pattern;
    if stem == [] {
      assert s == pattern;
      assert s[|pattern|..] == [];
    } else {
      assert !(pattern <= s[0..]);
      assert s[1..] == stem[1..] + pattern;
      forall k | 0 <= k < |stem[1..]| ensures !(pattern <= (stem[1..] + pattern)[k..]) {
        assert (stem[1..] + pattern)[k..] == s[k + 1..];
      }
      RemoveAllSuffix(stem[1..], pattern);
      assert stem == [stem[0]] + stem[1..];
    }
  }
}
