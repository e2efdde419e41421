/**
 * The last-modified table of the site's pages and its three getters. Each
 * getter looks the URL up in the static pages followed by the tutorial pages
 * and takes the first match, falling back to a default through `||`.
 */
module ContentUpdates {
  import opened Wrappers
  import opened SitemapProtocol

  datatype PageUpdate = PageUpdate(
    url: string,
    lastModified: string,
    changeFrequency: ChangeFrequency,
    priority: real)

  const StaticPagesUpdates: seq<PageUpdate> := [
    PageUpdate("", "2025-12-26", Daily, 1.0),
    PageUpdate("/home", "2025-12-26", Weekly, 0.8),
    PageUpdate("/prompts", "2025-12-26", Daily, 0.9),
    PageUpdate("/tutorials", "2025-12-20", Weekly, 0.9),
    PageUpdate("/community", "2025-12-01", Weekly, 0.8),
    PageUpdate("/figure-generate", "2025-11-15", Weekly, 0.7),
    PageUpdate("/article-generator-demo", "2025-11-15", Weekly, 0.7),
    PageUpdate("/search", "2025-12-01", Daily, 0.6),
    PageUpdate("/about", "2025-11-01", Monthly, 0.6),
    PageUpdate("/contact", "2025-11-01", Monthly, 0.6),
    PageUpdate("/privacy", "2025-01-01", Yearly, 0.3),
    PageUpdate("/terms", "2025-01-01", Yearly, 0.3)]

  const TutorialPagesUpdates: seq<PageUpdate> := [
    PageUpdate("/tutorials/getting-started", "2025-12-20", Weekly, 0.8),
    PageUpdate("/tutorials/character-consistency", "2025-12-18", Weekly, 0.8),
    PageUpdate("/tutorials/multi-turn-editing", "2025-12-15", Weekly, 0.8),
    PageUpdate("/tutorials/building-cinematic-universes", "2025-12-10", Monthly, 0.7),
    PageUpdate("/tutorials/product-photography-with-ai", "2025-12-08", Monthly, 0.7),
    PageUpdate("/tutorials/api-integration", "2025-12-05", Monthly, 0.7),
    PageUpdate("/tutorials/style-transfer-techniques", "2025-12-01", Monthly, 0.7),
    PageUpdate("/tutorials/advanced-techniques", "2025-11-28", Monthly, 0.7),
    PageUpdate("/tutorials/prompt-engineering", "2025-11-25", Monthly, 0.7)]

  /** `[...staticPagesUpdates, ...tutorialPagesUpdates]`. */
  function AllPages(): seq<PageUpdate>
  {
    StaticPagesUpdates + TutorialPagesUpdates
  }

  /** `pages.find(p => p.url === url)`. */
  function FindPage(pages: seq<PageUpdate>, url: string): (found: Option<PageUpdate>)
    ensures found.None? <==> forall i :: 0 <= i < |pages| ==> pages[i].url != url
    ensures found.Some? ==>
      exists i :: 0 <= i < |pages| && pages[i] == found.value && pages[i].url == url &&
        forall j :: 0 <= j < i ==> pages[j].url != url
    decreases |pages|
  {
    if pages == [] then None
    else if pages[0].url == url then Some(pages[0])
    else
      var rest := FindPage(pages[1..], url);
      assert forall i :: 0 < i < |pages| ==> pages[i] == pages[1..][i - 1];
      rest
  }

  /** Searching a concatenation searches the first part before the second. */
  lemma {:induction false} FindPageConcat(a: seq<PageUpdate>, b: seq<PageUpdate>, url: string)
    ensures FindPage(a + b, url) == if FindPage(a, url).Some? then FindPage(a, url) else FindPage(b, url)
    decreases |a|
  {
    if a == [] {
      assert a + b == b;
    } else {
      assert (a + b)[1..] == a[1..] + b;
      FindPageConcat(a[1..], b, url);
    }
  }

  /** Row `i` is the first row of `pages` with URL `url`. */
  predicate FirstMatch(pages: seq<PageUpdate>, url: string, i: int)
  {
    0 <= i < |pages| && pages[i].url == url && forall j :: 0 <= j < i ==> pages[j].url != url
  }

  /** `page?.lastModified || today` over an arbitrary table; `today` stands
      for the date part of the current time. The first row with the URL
      answers, unless its date is empty (falsy); no row means today. */
  function LastModifiedIn(pages: seq<PageUpdate>, url: string, today: string): (date: string)
    ensures (forall i :: 0 <= i < |pages| ==> pages[i].url != url) ==> date == today
    ensures forall i :: FirstMatch(pages, url, i) ==>
      date == if pages[i].lastModified != "" then pages[i].lastModified else today
    ensures date == today || exists i :: FirstMatch(pages, url, i) && date == pages[i].lastModified
  {
    match FindPage(pages, url)
    case Some(page) => if page.lastModified != "" then page.lastModified else today
    case None => today
  }

  /** `page?.changeFrequency || 'weekly'`; a frequency is never empty, so the
      first row with the URL always answers with its own. */
  function ChangeFrequencyIn(pages: seq<PageUpdate>, url: string): (freq: ChangeFrequency)
    ensures (forall i :: 0 <= i < |pages| ==> pages[i].url != url) ==> freq == Weekly
    ensures forall i :: FirstMatch(pages, url, i) ==> freq == pages[i].changeFrequency
  {
    match FindPage(pages, url)
    case Some(page) => page.changeFrequency
    case None => Weekly
  }

  /** `page?.priority || 0.5`: the first row with the URL answers, except
      that a stored priority of 0 is falsy and also yields 0.5. */
  function PriorityIn(pages: seq<PageUpdate>, url: string): (p: real)
    ensures (forall i :: 0 <= i < |pages| ==> pages[i].url != url) ==> p == 0.5
    ensures forall i :: FirstMatch(pages, url, i) ==> p == if pages[i].priority != 0.0 then pages[i].priority else 0.5
    ensures p == 0.5 || exists i :: FirstMatch(pages, url, i) && p == pages[i].priority
  {
    match FindPage(pages, url)
    case Some(page) => if page.priority != 0.0 then page.priority else 0.5
    case None => 0.5
  }

  /** `getLastModifiedDate(url)`: the stored date of a listed URL, today for
      any other. */
  function GetLastModifiedDate(url: string, today: string): (date: string)
    ensures forall i :: 0 <= i < |AllPages()| && AllPages()[i].url == url ==> date == AllPages()[i].lastModified
    ensures (forall i :: 0 <= i < |AllPages()| ==> AllPages()[i].url != url) ==> date == today
  {
    UrlsDistinct();
    StoredValuesTruthy();
    LastModifiedIn(AllPages(), url, today)
  }

  /** `getChangeFrequency(url)`: the stored frequency of a listed URL, weekly
      for any other. */
  function GetChangeFrequency(url: string): (freq: ChangeFrequency)
    ensures forall i :: 0 <= i < |AllPages()| && AllPages()[i].url == url ==> freq == AllPages()[i].changeFrequency
    ensures (forall i :: 0 <= i < |AllPages()| ==> AllPages()[i].url != url) ==> freq == Weekly
  {
    UrlsDistinct();
    ChangeFrequencyIn(AllPages(), url)
  }

  /** `getPriority(url)`: the stored priority of a listed URL, 0.5 for any
      other. */
  function GetPriority(url: string): (p: real)
    ensures forall i :: 0 <= i < |AllPages()| && AllPages()[i].url == url ==> p == AllPages()[i].priority
    ensures (forall i :: 0 <= i < |AllPages()| ==> AllPages()[i].url != url) ==> p == 0.5
  {
    UrlsDistinct();
    StoredValuesTruthy();
    PriorityIn(AllPages(), url)
  }

  /** Static pages are searched before tutorial pages. */
  lemma StaticPagesFirst(url: string)
    ensures FindPage(AllPages(), url) ==
      if FindPage(StaticPagesUpdates, url).Some? then FindPage(StaticPagesUpdates, url)
      else FindPage(TutorialPagesUpdates, url)
  {
    FindPageConcat(StaticPagesUpdates, TutorialPagesUpdates, url);
  }

  /** No URL occurs twice across the two tables. */
  lemma UrlsDistinct()
    ensures forall j, k :: 0 <= j < k < |AllPages()| ==> AllPages()[j].url != AllPages()[k].url
  {
  }

  /** Every stored priority lies in (0, 1], every date is non-empty. */
  lemma StoredValuesTruthy()
    ensures forall i :: 0 <= i < |AllPages()| ==>
      0.0 < AllPages()[i].priority <= 1.0 && AllPages()[i].lastModified != ""
  {
  }
}
