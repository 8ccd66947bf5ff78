/**
  The three regular expressions of the flow definition schema, each written
  out as a scanner that follows the expression's structure, with a
  characterisation in plain words proved equivalent to it.

  They are Go (RE2) expressions compiled with the default Perl flags: `^` and
  `$` match only at the ends of the text, `.` does not match a line feed, and a
  negated class such as `[^/]` does.
*/
module Patterns {
  import opened Validation

  predicate IsLowerAlnum(c: char) {
    'a' <= c <= 'z' || '0' <= c <= '9'
  }

  predicate IsAlnum(c: char) {
    'a' <= c <= 'z' || 'A' <= c <= 'Z' || '0' <= c <= '9'
  }

  // ------------------------------------------------- ^[a-z0-9](-*[a-z0-9])*$

  /** `^[a-z0-9](-*[a-z0-9])*$`, the flow definition name. */
  predicate MatchesNamePattern(s: string) {
    |s| > 0 && IsLowerAlnum(s[0]) && NameGroups(s[1..], false)
  }

  /**
    The repeated group `(-*[a-z0-9])*`: `pending` says a group has been opened
    by hyphens and still needs its letter or digit.
  */
  predicate NameGroups(t: string, pending: bool)
    decreases |t|
  {
    if t == [] then !pending
    else if IsLowerAlnum(t[0]) then NameGroups(t[1..], false)
    else t[0] == '-' && NameGroups(t[1..], true)
  }

  predicate IsNameChar(c: char) {
    IsLowerAlnum(c) || c == '-'
  }

  /** Lower-case letters, digits and hyphens, starting and ending with a letter or digit. */
  predicate NameShape(s: string) {
    && |s| > 0
    && (forall i | 0 <= i < |s| :: IsNameChar(s[i]))
    && s[0] != '-'
    && s[|s| - 1] != '-'
  }

  lemma {:induction false} NameGroupsIff(t: string, pending: bool)
    ensures NameGroups(t, pending) <==>
      && (forall i | 0 <= i < |t| :: IsNameChar(t[i]))
      && (if t == [] then !pending else t[|t| - 1] != '-')
  {
    if t != [] {
      NameGroupsIff(t[1..], IsNameChar(t[0]) && !IsLowerAlnum(t[0]));
      assert forall i | 1 <= i < |t| :: t[i] == t[1..][i - 1];
    }
  }

  /** The name pattern accepts exactly the strings of `NameShape`. */
  lemma NamePatternIff(s: string)
    ensures MatchesNamePattern(s) <==> NameShape(s)
  {
    if |s| > 0 {
      NameGroupsIff(s[1..], false);
      assert forall i | 1 <= i < |s| :: s[i] == s[1..][i - 1];
    }
  }

  // --------------------------------------------- ^[A-Za-z0-9]+( [A-Za-z0-9]+)*$

  /** Where the keyword scanner stands: before the first word, inside a word, or just after a space. */
  datatype KeywordState = Start | InWord | AfterSpace

  /** `^[A-Za-z0-9]+( [A-Za-z0-9]+)*$`, one task keyword. */
  predicate MatchesKeywordPattern(s: string) {
    KeywordScan(s, Start)
  }

  predicate KeywordScan(t: string, st: KeywordState)
    decreases |t|
  {
    if t == [] then st == InWord
    else if IsAlnum(t[0]) then KeywordScan(t[1..], InWord)
    else t[0] == ' ' && st == InWord && KeywordScan(t[1..], AfterSpace)
  }

  predicate IsKeywordChar(c: char) {
    IsAlnum(c) || c == ' '
  }

  /** No two spaces in a row. */
  predicate SingleSpaced(s: string) {
    forall i | 0 <= i < |s| - 1 :: !(s[i] == ' ' && s[i + 1] == ' ')
  }

  /**
    Words of ASCII letters and digits separated by single spaces: non-empty,
    no space at either end, no two spaces in a row.
  */
  predicate KeywordShape(s: string) {
    && |s| > 0
    && (forall i | 0 <= i < |s| :: IsKeywordChar(s[i]))
    && s[0] != ' '
    && s[|s| - 1] != ' '
    && SingleSpaced(s)
  }

  lemma {:induction false} KeywordScanIff(t: string, st: KeywordState)
    ensures KeywordScan(t, st) <==>
      && (forall i | 0 <= i < |t| :: IsKeywordChar(t[i]))
      && SingleSpaced(t)
      && (if t == [] then st == InWord else t[|t| - 1] != ' ' && (st != InWord ==> t[0] != ' '))
  {
    if t != [] {
      var next := if IsAlnum(t[0]) then InWord else AfterSpace;
      KeywordScanIff(t[1..], next);
      assert forall i | 1 <= i < |t| :: t[i] == t[1..][i - 1];
      assert SingleSpaced(t) <==> SingleSpaced(t[1..]) && !(|t| > 1 && t[0] == ' ' && t[1] == ' ');
    }
  }

  /** The keyword pattern accepts exactly the strings of `KeywordShape`. */
  lemma KeywordPatternIff(s: string)
    ensures MatchesKeywordPattern(s) <==> KeywordShape(s)
  {
    KeywordScanIff(s, Start);
  }

  // ------------------------------------------------------ ^(https|s3)://([^/])/?(.*)$

  /** `^(https|s3)://([^/])/?(.*)$`, the S3 output path. */
  predicate MatchesS3OutputPathPattern(s: string) {
    || (|s| >= 8 && s[..8] == "https://" && S3PathAfterScheme(s[8..]))
    || (|s| >= 5 && s[..5] == "s3://" && S3PathAfterScheme(s[5..]))
  }

  /** `([^/])/?(.*)$`: one character other than a slash, an optional slash, then `.*`. */
  predicate S3PathAfterScheme(t: string) {
    |t| > 0 && t[0] != '/' && (DotStar(t[1..]) || (|t| > 1 && t[1] == '/' && DotStar(t[2..])))
  }

  /** `.*$` without the s flag: the rest of the text holds no line feed. */
  predicate DotStar(t: string)
    decreases |t|
  {
    t == [] || (t[0] != '\n' && DotStar(t[1..]))
  }

  lemma {:induction false} DotStarIff(t: string)
    ensures DotStar(t) <==> '\n' !in t
  {
    if t != [] {
      DotStarIff(t[1..]);
      assert t == [t[0]] + t[1..];
    }
  }

  /**
    `https://` or `s3://`, then at least one character of which the first is
    not a slash, and no line feed after that first character.
  */
  predicate S3PathShape(s: string) {
    || (|s| > 8 && s[..8] == "https://" && s[8] != '/' && '\n' !in s[9..])
    || (|s| > 5 && s[..5] == "s3://" && s[5] != '/' && '\n' !in s[6..])
  }

  /** The S3 path pattern accepts exactly the strings of `S3PathShape`. */
  lemma S3OutputPathPatternIff(s: string)
    ensures MatchesS3OutputPathPattern(s) <==> S3PathShape(s)
  {
    forall n | n == 8 || n == 5
      ensures |s| > n ==> (S3PathAfterScheme(s[n..]) <==> s[n] != '/' && '\n' !in s[n + 1..])
    {
      if |s| > n {
        var t := s[n..];
        DotStarIff(t[1..]);
        assert t[1..] == s[n + 1..];
        if |t| > 1 {
          DotStarIff(t[2..]);
          assert t[1..] == [t[1]] + t[2..];
        }
      }
    }
  }
}
