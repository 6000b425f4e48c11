/**
 * The string pipeline of the alert-type fallback label:
 * `replace("_", " ").split(" ").joinToString(" ") { it.lowercase().replaceFirstChar { it.uppercase() } }`,
 * and a character-by-character description of what it produces.
 */
module Words {
  import opened Text

  /** `s.replace("_", " ")` */
  function ReplaceUnderscores(s: string): (r: string)
    ensures |r| == |s|
    ensures forall i :: 0 <= i < |s| ==> r[i] == (if s[i] == '_' then ' ' else s[i])
  {
    seq(|s|, i requires 0 <= i < |s| => if s[i] == '_' then ' ' else s[i])
  }

  /**
   * `s.split(" ")`: the pieces between spaces, empty ones included, so there
   * is always at least one.
   */
  function SplitSpaces(s: string): (parts: seq<string>)
    ensures |parts| >= 1
  {
    if s == [] then [""]
    else
      var rest := SplitSpaces(s[1..]);
      if s[0] == ' ' then [""] + rest else [[s[0]] + rest[0]] + rest[1..]
  }

  /** `parts.joinToString(" ")` */
  function JoinSpaces(parts: seq<string>): string
    requires |parts| >= 1
  {
    if |parts| == 1 then parts[0] else parts[0] + " " + JoinSpaces(parts[1..])
  }

  /** Each piece lower-cased with its first character upper-cased. */
  function TitleEach(parts: seq<string>): (r: seq<string>)
    ensures |r| == |parts|
    ensures forall i :: 0 <= i < |parts| ==> r[i] == TitleWord(parts[i])
  {
    seq(|parts|, i requires 0 <= i < |parts| => TitleWord(parts[i]))
  }

  /** `s.split(" ").joinToString(" ") { titled }` */
  function TitleWords(s: string): string {
    JoinSpaces(TitleEach(SplitSpaces(s)))
  }

  /**
   * The reference: every character lower-cased, except that a character at
   * the start or right after a space is upper-cased.
   */
  function TitleFrom(s: string, atWordStart: bool): (r: string)
    ensures |r| == |s|
  {
    if s == [] then []
    else [if atWordStart then UpperChar(LowerChar(s[0])) else LowerChar(s[0])] + TitleFrom(s[1..], s[0] == ' ')
  }

  /** The joined titled pieces after the first, each after its space. */
  function TailJoin(parts: seq<string>): string
    requires |parts| >= 1
  {
    if |parts| == 1 then "" else " " + JoinSpaces(TitleEach(parts[1..]))
  }

  lemma JoinTitled(parts: seq<string>)
    requires |parts| >= 1
    ensures JoinSpaces(TitleEach(parts)) == TitleWord(parts[0]) + TailJoin(parts)
  {
    if |parts| > 1 {
      assert TitleEach(parts)[1..] == TitleEach(parts[1..]);
    }
  }

  /**
   * Splitting, titling each piece and joining agrees with the reference;
   * the second half covers the text after a non-space first character.
   */
  lemma {:induction false} TitleWordsIsTitleFrom(s: string)
    ensures TitleWords(s) == TitleFrom(s, true)
    ensures Lower(SplitSpaces(s)[0]) + TailJoin(SplitSpaces(s)) == TitleFrom(s, false)
  {
    JoinTitled(SplitSpaces(s));
    if s != [] {
      TitleWordsIsTitleFrom(s[1..]);
      if s[0] == ' ' {
        SpaceCase(s);
      } else {
        LetterCase(s);
      }
    }
  }

  lemma SpaceCase(s: string)
    requires s != [] && s[0] == ' '
    requires TitleWords(s[1..]) == TitleFrom(s[1..], true)
    ensures TitleWords(s) == TitleFrom(s, true)
    ensures Lower(SplitSpaces(s)[0]) + TailJoin(SplitSpaces(s)) == TitleFrom(s, false)
  {
    var parts := SplitSpaces(s);
    JoinTitled(parts);
    SpaceStep(s);
    assert TitleWord("") == "" && Lower("") == "";
    assert TitleFrom(s, true) == [' '] + TitleFrom(s[1..], true);
    assert TitleFrom(s, false) == [' '] + TitleFrom(s[1..], true);
  }

  lemma LetterCase(s: string)
    requires s != [] && s[0] != ' '
    requires Lower(SplitSpaces(s[1..])[0]) + TailJoin(SplitSpaces(s[1..])) == TitleFrom(s[1..], false)
    ensures TitleWords(s) == TitleFrom(s, true)
    ensures Lower(SplitSpaces(s)[0]) + TailJoin(SplitSpaces(s)) == TitleFrom(s, false)
  {
    var parts, rest := SplitSpaces(s), SplitSpaces(s[1..]);
    LetterStep(s);
    JoinTitled(parts);
    Prepend([UpperChar(LowerChar(s[0]))], Lower(rest[0]), TailJoin(rest), TitleFrom(s[1..], false));
    Prepend([LowerChar(s[0])], Lower(rest[0]), TailJoin(rest), TitleFrom(s[1..], false));
  }

  lemma Prepend(a: string, b: string, d: string, x: string)
    requires b + d == x
    ensures (a + b) + d == a + x
  {
  }

  /** After a space, the next piece starts. */
  lemma SpaceStep(s: string)
    requires s != [] && s[0] == ' '
    ensures SplitSpaces(s)[0] == ""
    ensures TailJoin(SplitSpaces(s)) == " " + TitleWords(s[1..])
  {
    var rest := SplitSpaces(s[1..]);
    assert SplitSpaces(s) == [""] + rest;
    assert SplitSpaces(s)[1..] == rest;
  }

  /** A non-space character extends the first piece. */
  lemma LetterStep(s: string)
    requires s != [] && s[0] != ' '
    ensures var parts, rest := SplitSpaces(s), SplitSpaces(s[1..]);
      TitleWord(parts[0]) == [UpperChar(LowerChar(s[0]))] + Lower(rest[0]) &&
      Lower(parts[0]) == [LowerChar(s[0])] + Lower(rest[0]) &&
      TailJoin(parts) == TailJoin(rest)
  {
    var parts, rest := SplitSpaces(s), SplitSpaces(s[1..]);
    assert parts == [[s[0]] + rest[0]] + rest[1..];
    LowerCons(s[0], rest[0]);
    assert TailJoin(parts) == TailJoin(rest) by {
      if |rest| > 1 {
        assert parts[1..] == rest[1..];
      }
    }
  }

  /** Lower-casing a piece that starts with `c`. */
  lemma LowerCons(c: char, w: string)
    ensures Lower([c] + w) == [LowerChar(c)] + Lower(w)
    ensures TitleWord([c] + w) == [UpperChar(LowerChar(c))] + Lower(w)
  {
    assert Lower([c] + w) == [LowerChar(c)] + Lower(w);
  }

  /** The reference, one index at a time. */
  lemma {:induction false} TitleFromAt(s: string, atWordStart: bool, i: int)
    requires 0 <= i < |s|
    ensures TitleFrom(s, atWordStart)[i] ==
      if (i == 0 && atWordStart) || (i > 0 && s[i - 1] == ' ') then UpperChar(LowerChar(s[i])) else LowerChar(s[i])
  {
    if i > 0 {
      TitleFromAt(s[1..], s[0] == ' ', i - 1);
    }
  }

  /** The number of spaces in `s`. */
  function CountSpaces(s: string): nat {
    if s == [] then 0 else (if s[0] == ' ' then 1 else 0) + CountSpaces(s[1..])
  }

  /** `split(" ")` yields one piece more than there are spaces. */
  lemma {:induction false} SplitSpacesCount(s: string)
    ensures |SplitSpaces(s)| == CountSpaces(s) + 1
  {
    if s != [] {
      SplitSpacesCount(s[1..]);
    }
  }

  /** Strings with spaces at the same places have the same number of spaces. */
  lemma {:induction false} SameSpacesSameCount(a: string, b: string)
    requires |a| == |b|
    requires forall i :: 0 <= i < |a| ==> (a[i] == ' ' <==> b[i] == ' ')
    ensures CountSpaces(a) == CountSpaces(b)
  {
    if a != [] {
      SameSpacesSameCount(a[1..], b[1..]);
    }
  }
}
