/**
 * The dynamic icon loader: conversion of an icon name to the PascalCase
 * export name of the icon library, and the module-level cache that maps
 * each export name to the lazily loaded component created for it. Components
 * are opaque tokens here; a token's serial number tells apart two components
 * created for the same name.
 */
module Icon {
  import Js

  /** `word.charAt(0).toUpperCase() + word.slice(1)`. */
  function Capitalize(word: string): (r: string)
    ensures |r| == |word|
    ensures |word| > 0 ==> r == [Js.UpperChar(word[0])] + word[1..]
  {
    if word == "" then "" else [Js.UpperChar(word[0])] + word[1..]
  }

  /** `.map(capitalize).join('')` over the pieces. */
  function CapitalizeAll(words: seq<string>): string
    decreases |words|
  {
    if words == [] then "" else Capitalize(words[0]) + CapitalizeAll(words[1..])
  }

  /** The export name for an icon name: split at '-', capitalise each piece,
      join without separator. */
  function IconName(name: string): (exportName: string)
    ensures exportName == PascalScan(name, true)
    ensures '-' !in exportName
    ensures |exportName| == |name| - Js.Count(name, '-')
  {
    PascalScanSplits(name);
    CapitalizeAll(Js.Split(name, '-'))
  }

  /** Reference definition by a single left-to-right scan: hyphens are
      dropped, a character at the start or right after a hyphen is
      upper-cased, every other character is kept. */
  function PascalScan(s: string, atWordStart: bool): (r: string)
    ensures '-' !in r
    ensures |r| == |s| - Js.Count(s, '-')
    decreases |s|
  {
    if s == [] then ""
    else if s[0] == '-' then PascalScan(s[1..], true)
    else [if atWordStart then Js.UpperChar(s[0]) else s[0]] + PascalScan(s[1..], false)
  }

  /** Split-map-join computes the scan. Inside a word, the scan produces the
      rest of the current piece followed by the capitalised later pieces. */
  lemma {:induction false} PascalScanSplits(s: string)
    ensures PascalScan(s, true) == CapitalizeAll(Js.Split(s, '-'))
    ensures PascalScan(s, false) == Js.Split(s, '-')[0] + CapitalizeAll(Js.Split(s, '-')[1..])
    decreases |s|
  {
    if s != [] {
      PascalScanSplits(s[1..]);
      if s[0] == '-' {
        HyphenStep(s);
      } else {
        LetterStep(s);
      }
    }
  }

  /** One step of the scan over a leading hyphen: an empty piece starts. */
  lemma HyphenStep(s: string)
    requires s != [] && s[0] == '-'
    requires PascalScan(s[1..], true) == CapitalizeAll(Js.Split(s[1..], '-'))
    ensures PascalScan(s, true) == CapitalizeAll(Js.Split(s, '-'))
    ensures PascalScan(s, false) == Js.Split(s, '-')[0] + CapitalizeAll(Js.Split(s, '-')[1..])
  {
    var t := s[1..];
    var rest := Js.Split(t, '-');
    var ps := [""] + rest;
    assert Js.Split(s, '-') == ps;
    assert ps[1..] == rest;
    assert CapitalizeAll(ps) == Capitalize("") + CapitalizeAll(rest);
  }

  /** One step of the scan over a leading non-hyphen: it joins the first
      piece. */
  lemma LetterStep(s: string)
    requires s != [] && s[0] != '-'
    requires PascalScan(s[1..], false) == Js.Split(s[1..], '-')[0] + CapitalizeAll(Js.Split(s[1..], '-')[1..])
    ensures PascalScan(s, true) == CapitalizeAll(Js.Split(s, '-'))
    ensures PascalScan(s, false) == Js.Split(s, '-')[0] + CapitalizeAll(Js.Split(s, '-')[1..])
  {
    var c := s[0];
    var rest := Js.Split(s[1..], '-');
    var ps := Js.Split(s, '-');
    SplitLetter(s);
    var head, tail := rest[0], CapitalizeAll(rest[1..]);
    assert PascalScan(s, false) == [c] + (head + tail);
    assert PascalScan(s, true) == [Js.UpperChar(c)] + (head + tail);
    CapitalizeCons(ps[0], ps[1..]);
    assert Capitalize([c] + head) == [Js.UpperChar(c)] + head;
    ConsAssociative(c, head, tail);
    ConsAssociative(Js.UpperChar(c), head, tail);
  }

  /** Splitting at a leading non-separator extends the first piece. */
  lemma SplitLetter(s: string)
    requires s != [] && s[0] != '-'
    ensures Js.Split(s, '-')[0] == [s[0]] + Js.Split(s[1..], '-')[0]
    ensures Js.Split(s, '-')[1..] == Js.Split(s[1..], '-')[1..]
    ensures Js.Split(s, '-') == [Js.Split(s, '-')[0]] + Js.Split(s, '-')[1..]
  {
  }

  lemma ConsAssociative(c: char, a: string, b: string)
    ensures [c] + (a + b) == ([c] + a) + b
  {
  }

  /** `CapitalizeAll` over a sequence with a known first piece. */
  lemma CapitalizeCons(w: string, ws: seq<string>)
    ensures CapitalizeAll([w] + ws) == Capitalize(w) + CapitalizeAll(ws)
  {
    assert ([w] + ws)[1..] == ws;
  }

  /** A name without hyphens (camelCase included) changes in its first
      character only. */
  lemma {:induction false} UnhyphenatedNameKeepsTail(name: string)
    requires '-' !in name
    requires name != ""
    ensures IconName(name) == [Js.UpperChar(name[0])] + name[1..]
  {
    PascalScanSplits(name);
    ScanKeepsUnhyphenated(name[1..]);
  }

  lemma {:induction false} ScanKeepsUnhyphenated(s: string)
    requires '-' !in s
    ensures PascalScan(s, false) == s
    decreases |s|
  {
    if s != [] {
      ScanKeepsUnhyphenated(s[1..]);
    }
  }

  /** A lazily loaded icon component created for an export name. */
  datatype Token = LazyIcon(iconName: string, serial: nat)

  /** The cache's contents and the number of components created so far. */
  datatype CacheState = CacheState(entries: map<string, Token>, created: nat)

  /** Every entry is a component created for its own key, and serial numbers
      below `created` are the ones used. */
  ghost predicate WellFormed(st: CacheState)
  {
    forall k :: k in st.entries ==> st.entries[k].iconName == k && st.entries[k].serial < st.created
  }

  /** The get-or-create step of `Icon` and `preloadIcons` for one key. */
  function GetOrCreate(st: CacheState, key: string): (st': CacheState)
    ensures key in st'.entries
    ensures key in st.entries ==> st' == st
    ensures key !in st.entries ==>
      st'.entries == st.entries[key := LazyIcon(key, st.created)] && st'.created == st.created + 1
  {
    if key in st.entries then st
    else CacheState(st.entries[key := LazyIcon(key, st.created)], st.created + 1)
  }

  /** The cache after preloading `names`, in order. */
  function Preloaded(st: CacheState, names: seq<string>): (st': CacheState)
    ensures forall i :: 0 <= i < |names| ==> IconName(names[i]) in st'.entries
    ensures forall k :: k in st.entries ==> k in st'.entries && st'.entries[k] == st.entries[k]
    ensures st'.created >= st.created
    decreases |names|
  {
    if names == [] then st
    else
      var init := names[..|names| - 1];
      assert forall i :: 0 <= i < |init| ==> names[i] == init[i];
      GetOrCreate(Preloaded(st, init), IconName(names[|names| - 1]))
  }

  /** The images of `names` under `f`, collected name by name. */
  ghost function ImageOf(f: string -> string, names: seq<string>): set<string>
    decreases |names|
  {
    if names == [] then {} else ImageOf(f, names[..|names| - 1]) + {f(names[|names| - 1])}
  }

  /** A key is an image exactly when some name maps to it. */
  lemma {:induction false} ImageMembers(f: string -> string, names: seq<string>, key: string)
    ensures key in ImageOf(f, names) <==> exists i :: 0 <= i < |names| && f(names[i]) == key
    decreases |names|
  {
    if names != [] {
      var init := names[..|names| - 1];
      ImageMembers(f, init, key);
      if key in ImageOf(f, init) {
        var i :| 0 <= i < |init| && f(init[i]) == key;
        assert names[i] == init[i];
      }
      if exists i :: 0 <= i < |names| && f(names[i]) == key {
        var i :| 0 <= i < |names| && f(names[i]) == key;
        if i < |init| { assert init[i] == names[i]; }
      }
    }
  }

  /** The export names of `names`. */
  ghost function KeysOf(names: seq<string>): set<string>
  {
    ImageOf(IconName, names)
  }

  /** A key is among the export names of `names` exactly when some name
      converts to it. */
  lemma KeysOfMembers(names: seq<string>, key: string)
    ensures key in KeysOf(names) <==> exists i :: 0 <= i < |names| && IconName(names[i]) == key
  {
    ImageMembers(IconName, names, key);
  }

  /** Preloading adds exactly the export names of `names`, never replaces an
      entry, and keeps the cache well formed. */
  lemma {:induction false} PreloadedEntries(st: CacheState, names: seq<string>)
    requires WellFormed(st)
    ensures WellFormed(Preloaded(st, names))
    ensures Preloaded(st, names).entries.Keys == st.entries.Keys + KeysOf(names)
    ensures forall k :: k in st.entries ==> Preloaded(st, names).entries[k] == st.entries[k]
    decreases |names|
  {
    if names != [] {
      var init := names[..|names| - 1];
      PreloadedEntries(st, init);
    }
  }

  /** Preloading is idempotent: a second preload of the same names changes
      nothing. */
  lemma {:induction false} PreloadIdempotent(st: CacheState, names: seq<string>)
    requires WellFormed(st)
    ensures Preloaded(Preloaded(st, names), names) == Preloaded(st, names)
  {
    var once := Preloaded(st, names);
    PreloadedEntries(st, names);
    forall i | 0 <= i < |names| ensures IconName(names[i]) in once.entries {
      KeysOfMembers(names, IconName(names[i]));
    }
    PreloadPresentNoop(once, names);
  }

  /** Preloading names whose keys are all cached changes nothing. */
  lemma {:induction false} PreloadPresentNoop(st: CacheState, names: seq<string>)
    requires forall i :: 0 <= i < |names| ==> IconName(names[i]) in st.entries
    ensures Preloaded(st, names) == st
    decreases |names|
  {
    if names != [] {
      PreloadPresentNoop(st, names[..|names| - 1]);
    }
  }

  /** The module-level `iconCache` and its bookkeeping. */
  class IconCache {
    var entries: map<string, Token>
    var created: nat

    function State(): CacheState
      reads this
    {
      CacheState(entries, created)
    }

    ghost predicate Valid()
      reads this
    {
      WellFormed(State())
    }

    constructor ()
      ensures Valid() && entries == map[] && created == 0
    {
      entries, created := map[], 0;
    }

    /** The cache lookup in the `Icon` component: returns the component it
        renders for `name`, creating and caching one if the key is absent. */
    method Icon(name: string) returns (component: Token)
      requires Valid()
      modifies this
      ensures Valid()
      ensures State() == GetOrCreate(old(State()), IconName(name))
      ensures IconName(name) in entries && component == entries[IconName(name)]
      ensures component.iconName == IconName(name)
    {
      var iconName := IconName(name);
      if iconName !in entries {
        var dynamicIcon := LazyIcon(iconName, created);
        entries := entries[iconName := dynamicIcon];
        created := created + 1;
      }
      component := entries[iconName];
    }

    /** `preloadIcons(names)`. */
    method PreloadIcons(names: seq<string>)
      requires Valid()
      modifies this
      ensures Valid()
      ensures State() == Preloaded(old(State()), names)
      ensures entries.Keys == old(entries.Keys) + KeysOf(names)
      ensures forall k :: k in old(entries) ==> entries[k] == old(entries)[k]
    {
      var i := 0;
      while i < |names|
        invariant 0 <= i <= |names|
        invariant State() == Preloaded(old(State()), names[..i])
      {
        assert names[..i + 1][..i] == names[..i];
        var iconName := IconName(names[i]);
        if iconName !in entries {
          entries := entries[iconName := LazyIcon(iconName, created)];
          created := created + 1;
        }
        i := i + 1;
      }
      assert names[..i] == names;
      PreloadedEntries(old(State()), names);
    }

    /** `clearIconCache()`. */
    method ClearIconCache()
      requires Valid()
      modifies this
      ensures Valid()
      ensures entries == map[] && created == old(created)
    {
      entries := map[];
    }
  }
}
