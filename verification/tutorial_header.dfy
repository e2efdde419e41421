/**
 * The two computed values of the tutorial page header
 * (components/tutorials/TutorialHeader.tsx): the author's initials shown
 * in the avatar fallback, and the category badge's colour classes.
 */
module TutorialHeader {
  import Js
  import opened TutorialTypes

  /** `n[0]` for one word, as `join("")` renders it: the first character,
      or nothing for an empty word (where `n[0]` is `undefined`). */
  function Initial(word: string): (r: string)
    ensures |r| == if word == [] then 0 else 1
    ensures r == word[..|r|]
  {
    if word == [] then [] else [word[0]]
  }

  /** `.map((n) => n[0]).join("")`: one initial per non-empty word, so
      doubled, leading or trailing spaces add nothing. */
  function InitialsOf(words: seq<string>): (initials: string)
    ensures |initials| == NonEmptyWords(words)
    decreases |words|
  {
    if words == [] then [] else Initial(words[0]) + InitialsOf(words[1..])
  }

  /** The avatar fallback text for an author name: one character per
      non-empty word of the name, taken in order from the name itself, none
      of them a space. */
  function AuthorInitials(name: string): (initials: string)
    ensures |initials| == NonEmptyWords(Js.Split(name, ' '))
    ensures ' ' !in initials
    ensures Js.IsSubsequence(initials, name)
  {
    WordStartsSplits(name);
    WordStartsInName(name, true);
    InitialsOf(Js.Split(name, ' '))
  }

  /** Reference definition by one left-to-right scan: a character other
      than a space is kept exactly when it starts the name or follows a
      space. */
  function WordStarts(s: string, atStart: bool): (starts: string)
    ensures ' ' !in starts
    ensures |starts| <= |s|
    decreases |s|
  {
    if s == [] then []
    else if s[0] == ' ' then WordStarts(s[1..], true)
    else (if atStart then [s[0]] else []) + WordStarts(s[1..], false)
  }

  /** Split-map-join computes the scan; in the middle of a word, the scan
      yields the initials of the later words only. */
  lemma {:induction false} WordStartsSplits(s: string)
    ensures WordStarts(s, true) == InitialsOf(Js.Split(s, ' '))
    ensures WordStarts(s, false) == InitialsOf(Js.Split(s, ' ')[1..])
    decreases |s|
  {
    if s != [] {
      var t := s[1..];
      WordStartsSplits(t);
      var rest := Js.Split(t, ' ');
      if s[0] == ' ' {
        var ps := [""] + rest;
        assert Js.Split(s, ' ') == ps;
        assert ps[1..] == rest;
        assert InitialsOf(ps) == Initial("") + InitialsOf(rest);
      } else {
        var c := s[0];
        var ps := [[c] + rest[0]] + rest[1..];
        assert Js.Split(s, ' ') == ps;
        assert ps[1..] == rest[1..];
        assert Initial(ps[0]) == [c];
        assert InitialsOf(ps) == [c] + InitialsOf(rest[1..]);
        assert WordStarts(s, true) == [c] + WordStarts(t, false);
        assert WordStarts(s, false) == WordStarts(t, false);
      }
    }
  }

  /** Number of non-empty words. */
  function NonEmptyWords(words: seq<string>): (n: nat)
    ensures n <= |words|
    decreases |words|
  {
    if words == [] then 0 else (if words[0] == [] then 0 else 1) + NonEmptyWords(words[1..])
  }

  /** The initials can be read off the name from left to right. */
  lemma {:induction false} WordStartsInName(s: string, atStart: bool)
    ensures Js.IsSubsequence(WordStarts(s, atStart), s)
    decreases |s|
  {
    if s != [] {
      WordStartsInName(s[1..], true);
      WordStartsInName(s[1..], false);
      var r := WordStarts(s, atStart);
      if s[0] == ' ' {
        assert r == WordStarts(s[1..], true);
      } else if atStart {
        assert r == [s[0]] + WordStarts(s[1..], false);
        assert r[1..] == WordStarts(s[1..], false);
      } else {
        assert r == WordStarts(s[1..], false);
      }
    }
  }

  /** The badge's class list, `${categoryColor.bg} ${categoryColor.text}`. */
  function BadgeClassName(c: TutorialCategory): (classes: string)
    ensures |classes| > |CategoryColors(c).bg| && classes[|CategoryColors(c).bg|] == ' '
    ensures classes[..|CategoryColors(c).bg|] == CategoryColors(c).bg
    ensures classes[|CategoryColors(c).bg| + 1..] == CategoryColors(c).text
  {
    CategoryColors(c).bg + " " + CategoryColors(c).text
  }

  /** Joining two classes with a space loses nothing when the first class
      has no space of its own. */
  lemma {:induction false} SpaceJoinInjective(b1: string, t1: string, b2: string, t2: string)
    requires ' ' !in b1 && ' ' !in b2
    requires b1 + " " + t1 == b2 + " " + t2
    ensures b1 == b2 && t1 == t2
  {
    var x := b1 + " " + t1;
    assert x[|b1|] == ' ' && x[|b2|] == ' ';
    assert forall i :: 0 <= i < |b1| ==> x[i] == b1[i];
    assert forall i :: 0 <= i < |b2| ==> x[i] == b2[i];
    assert |b1| == |b2|;
    assert b1 == x[..|b1|] == b2;
    assert t1 == x[|b1| + 1..] == t2;
  }

  /** No background class holds a space. */
  lemma BackgroundHasNoSpace(c: TutorialCategory)
    ensures ' ' !in CategoryColors(c).bg
  {
    match c
    case Beginner =>
    case Intermediate =>
    case Advanced =>
    case Marketing =>
    case Cinematic =>
  }

  /** Two categories never share a badge class list. */
  lemma BadgeClassNamesDistinct(c: TutorialCategory, d: TutorialCategory)
    requires c != d
    ensures BadgeClassName(c) != BadgeClassName(d)
  {
    CategoryColorsDistinct(c, d);
    BackgroundHasNoSpace(c);
    BackgroundHasNoSpace(d);
    if BadgeClassName(c) == BadgeClassName(d) {
      SpaceJoinInjective(CategoryColors(c).bg, CategoryColors(c).text, CategoryColors(d).bg, CategoryColors(d).text);
    }
  }
}
