/**
 * The Python string operations the section extractors and templates rely on:
 * `str.split` on one separator, `sep.join`, `str.replace` of one character and
 * `str.title`, the last restricted to ASCII letters.
 */
module Text {

  /** `t in s` for strings: `t` occurs in `s` at some position. */
  predicate Contains(s: string, t: string) {
    exists k | 0 <= k <= |s| :: t <= s[k..]
  }

  /** `s.split(sep)`: the pieces between separators; always at least one piece. */
  function Split(s: string, sep: char): (parts: seq<string>)
    ensures |parts| >= 1
    ensures forall i :: 0 <= i < |parts| ==> sep !in parts[i]
  {
    if s == [] then [""]
    else
      var rest := Split(s[1..], sep);
      if s[0] == sep then [""] + rest
      else [[s[0]] + rest[0]] + rest[1..]
  }

  /** `sep.join(parts)`: the parts with `sep` between consecutive ones, none after the last. */
  function Join(sep: string, parts: seq<string>): string {
    if |parts| == 0 then ""
    else if |parts| == 1 then parts[0]
    else parts[0] + sep + Join(sep, parts[1..])
  }

  /** Joining the pieces of a split with the separator gives back the string. */
  lemma {:induction false} JoinSplit(s: string, sep: char)
    ensures Join([sep], Split(s, sep)) == s
  {
    if s != [] {
      var rest := Split(s[1..], sep);
      JoinSplit(s[1..], sep);
      if s[0] == sep {
        assert Split(s, sep) == [""] + rest;
      } else {
        var parts := Split(s, sep);
        assert parts == [[s[0]] + rest[0]] + rest[1..];
        if |rest| == 1 {
          assert Join([sep], parts) == [s[0]] + rest[0];
        } else {
          assert parts[1..] == rest[1..];
          assert Join([sep], parts) == [s[0]] + rest[0] + [sep] + Join([sep], rest[1..]);
        }
      }
    }
  }

  /** Splitting a join whose parts avoid the separator gives back the parts. */
  lemma {:induction false} SplitJoin(parts: seq<string>, sep: char)
    requires |parts| >= 1
    requires forall i :: 0 <= i < |parts| ==> sep !in parts[i]
    ensures Split(Join([sep], parts), sep) == parts
  {
    if |parts| == 1 {
      SplitNoSeparator(parts[0], sep);
    } else {
      SplitJoin(parts[1..], sep);
      SplitPrefix(parts[0], [sep] + Join([sep], parts[1..]), sep);
      assert parts[0] + [sep] + Join([sep], parts[1..]) == parts[0] + ([sep] + Join([sep], parts[1..]));
      assert ([sep] + Join([sep], parts[1..]))[1..] == Join([sep], parts[1..]);
      assert parts == [parts[0]] + parts[1..];
    }
  }

  lemma {:induction false} SplitNoSeparator(s: string, sep: char)
    requires sep !in s
    ensures Split(s, sep) == [s]
  {
    if s != [] {
      assert sep !in s[1..] && s[0] != sep;
      SplitNoSeparator(s[1..], sep);
      assert [s[0]] + s[1..] == s;
    }
  }

  /** A separator-free prefix `a` is glued onto the first piece of the rest. */
  lemma {:induction false} SplitPrefix(a: string, b: string, sep: char)
    requires sep !in a
    requires |b| > 0 && b[0] == sep
    ensures Split(a + b, sep) == [a] + Split(b[1..], sep)
  {
    if a == [] {
      assert a + b == b;
    } else {
      assert sep !in a[1..] && (a + b)[0] == a[0] != sep;
      SplitPrefix(a[1..], b, sep);
      assert (a + b)[1..] == a[1..] + b;
      assert [a[0]] + a[1..] == a;
    }
  }

  lemma {:induction false} JoinLast(sep: string, parts: seq<string>)
    requires |parts| >= 2
    ensures Join(sep, parts) == Join(sep, parts[..|parts| - 1]) + sep + parts[|parts| - 1]
  {
    if |parts| > 2 {
      JoinLast(sep, parts[1..]);
      assert parts[1..][..|parts| - 2] == parts[..|parts| - 1][1..];
    }
  }

  /** `s.split("/")[-1]`: the text after the last slash. */
  function LastSegment(s: string): string {
    var parts := Split(s, '/');
    parts[|parts| - 1]
  }

  /**
   * The last segment is the longest slash-free suffix: the whole string when it
   * has no slash, otherwise what follows the last slash ("" when it ends in one).
   */
  lemma LastSegmentIsLongestSlashFreeSuffix(s: string)
    ensures var r := LastSegment(s);
      && '/' !in r
      && |r| <= |s| && s[|s| - |r|..] == r
      && ('/' !in s ==> r == s)
      && ('/' in s ==> |r| < |s| && s[|s| - |r| - 1] == '/')
  {
    var parts := Split(s, '/');
    JoinSplit(s, '/');
    if |parts| == 1 {
      assert s == parts[0];
    } else {
      LastPartFollowsSlash(parts);
    }
  }

  lemma LastPartFollowsSlash(parts: seq<string>)
    requires |parts| >= 2
    ensures var s := Join("/", parts); var r := parts[|parts| - 1];
      |r| < |s| && s[|s| - |r|..] == r && s[|s| - |r| - 1] == '/'
  {
    JoinLast("/", parts);
    SlashThenSuffix(Join("/", parts[..|parts| - 1]), parts[|parts| - 1]);
  }

  lemma SlashThenSuffix(front: string, r: string)
    ensures var s := front + "/" + r;
      |r| < |s| && s[|s| - |r|..] == r && s[|s| - |r| - 1] == '/'
  {
  }

  /** A slash-free name after a final slash is the last segment. */
  lemma LastSegmentAfterSlash(p: string, n: string)
    requires '/' !in n
    ensures LastSegment(p + "/" + n) == n
  {
    var s := p + "/" + n;
    var r := LastSegment(s);
    LastSegmentIsLongestSlashFreeSuffix(s);
    assert s[|p|] == '/';
    assert s[|s| - |n|..] == n;
  }

  lemma LastSegmentOfTrailingSlash(s: string)
    requires |s| > 0 && s[|s| - 1] == '/'
    ensures LastSegment(s) == ""
  {
    LastSegmentIsLongestSlashFreeSuffix(s);
  }

  /** `s.replace(from, to)` for single characters. */
  function ReplaceChar(s: string, from: char, to: char): (r: string)
    ensures |r| == |s|
    ensures forall i :: 0 <= i < |s| ==> r[i] == (if s[i] == from then to else s[i])
  {
    seq(|s|, i requires 0 <= i < |s| => if s[i] == from then to else s[i])
  }

  predicate IsUpper(c: char) { 'A' <= c <= 'Z' }
  predicate IsLower(c: char) { 'a' <= c <= 'z' }
  predicate IsLetter(c: char) { IsUpper(c) || IsLower(c) }

  function ToUpper(c: char): char {
    if IsLower(c) then (c as int - 32) as char else c
  }

  function ToLower(c: char): char {
    if IsUpper(c) then (c as int + 32) as char else c
  }

  /** A letter starts a word when it is first or follows a non-letter. */
  predicate StartsWord(s: string, i: int)
    requires 0 <= i < |s|
  {
    i == 0 || !IsLetter(s[i - 1])
  }

  /**
   * `s.title()` over ASCII: each letter that starts a word is upper case, every
   * other letter lower case, each letter stays the same letter, and every
   * non-letter is kept.
   */
  function TitleCase(s: string): (r: string)
    ensures |r| == |s|
    ensures forall i :: 0 <= i < |s| && !IsLetter(s[i]) ==> r[i] == s[i]
    ensures forall i :: 0 <= i < |s| && IsLetter(s[i]) ==> ToLower(r[i]) == ToLower(s[i])
    ensures forall i :: 0 <= i < |s| && IsLetter(s[i]) && StartsWord(s, i) ==> IsUpper(r[i])
    ensures forall i :: 0 <= i < |s| && IsLetter(s[i]) && !StartsWord(s, i) ==> IsLower(r[i])
  {
    seq(|s|, i requires 0 <= i < |s| => TitleChar(s, i))
  }

  /** The character `s.title()` puts at position `i`. */
  function TitleChar(s: string, i: int): (c: char)
    requires 0 <= i < |s|
    ensures !IsLetter(s[i]) ==> c == s[i]
    ensures IsLetter(s[i]) ==> ToLower(c) == ToLower(s[i])
    ensures IsLetter(s[i]) && StartsWord(s, i) ==> IsUpper(c)
    ensures IsLetter(s[i]) && !StartsWord(s, i) ==> IsLower(c)
  {
    if !IsLetter(s[i]) then s[i]
    else if StartsWord(s, i) then ToUpper(s[i])
    else ToLower(s[i])
  }

  /** Title-casing a title-cased string changes nothing. */
  lemma TitleCaseIdempotent(s: string)
    ensures TitleCase(TitleCase(s)) == TitleCase(s)
  {
    var t := TitleCase(s);
    var u := TitleCase(t);
    forall i | 0 <= i < |s| ensures u[i] == t[i] {
      assert IsLetter(t[i]) <==> IsLetter(s[i]);
      if i > 0 {
        assert IsLetter(t[i - 1]) <==> IsLetter(s[i - 1]);
      }
    }
  }
}
