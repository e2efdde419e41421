/**
 * The `sitemap.xml` route: static pages, one page per tutorial directory
 * found on disk (or a fixed list when the scan fails), one page per prompt,
 * all sorted by priority, highest first. The directory scan and the clock
 * are parameters: `scan` lists the slugs the scan yielded before it finished
 * or failed, `date` is the current time.
 */
module Sitemap {
  import opened SitemapProtocol
  import PromptData

  const BaseUrl: string := "https://nanobanana.fans"

  datatype SitemapEntry = SitemapEntry(
    url: string,
    lastModified: string,
    changeFrequency: ChangeFrequency,
    priority: real)

  /** A static page: its path below the site, how often it changes, and
      its priority. */
  datatype StaticRoute = StaticRoute(path: string, changeFrequency: ChangeFrequency, priority: real)

  /** The eleven static pages, the home page first. */
  const StaticRoutes: seq<StaticRoute> := [
    StaticRoute("", Daily, 1.0),
    StaticRoute("/prompts", Daily, 0.9),
    StaticRoute("/tutorials", Daily, 0.9),
    StaticRoute("/community", Weekly, 0.8),
    StaticRoute("/figure-generate", Weekly, 0.7),
    StaticRoute("/article-generator-demo", Weekly, 0.7),
    StaticRoute("/search", Daily, 0.6),
    StaticRoute("/about", Monthly, 0.6),
    StaticRoute("/contact", Monthly, 0.6),
    StaticRoute("/privacy", Monthly, 0.3),
    StaticRoute("/terms", Monthly, 0.3)]

  /** The entries of the static pages, all dated `date`. */
  function StaticPages(date: string): (pages: seq<SitemapEntry>)
    ensures |pages| == 11 && pages[0] == RootEntry(date)
    ensures forall i :: 0 <= i < |pages| ==>
      pages[i] == SitemapEntry(BaseUrl + StaticRoutes[i].path, date, StaticRoutes[i].changeFrequency, StaticRoutes[i].priority)
  {
    assert BaseUrl + StaticRoutes[0].path == BaseUrl;
    seq(|StaticRoutes|, i requires 0 <= i < |StaticRoutes| =>
      SitemapEntry(BaseUrl + StaticRoutes[i].path, date, StaticRoutes[i].changeFrequency, StaticRoutes[i].priority))
  }

  /** The entry of the home page. */
  function RootEntry(date: string): SitemapEntry
  {
    SitemapEntry(BaseUrl, date, Daily, 1.0)
  }

  /** The entry of one tutorial directory. */
  function TutorialEntry(slug: string, date: string): (e: SitemapEntry)
    ensures |e.url| >= |BaseUrl| && e.url[..|BaseUrl|] == BaseUrl && e.url[|BaseUrl|..] == "/tutorials/" + slug
    ensures e.lastModified == date && e.changeFrequency == Weekly && e.priority == 0.8
  {
    SitemapEntry(BaseUrl + "/tutorials/" + slug, date, Weekly, 0.8)
  }

  /** The entry of one prompt's detail page. */
  function PromptEntry(prompt: PromptData.Prompt, date: string): (e: SitemapEntry)
    ensures e.url == BaseUrl + PromptData.PromptPath(prompt.slug)
    ensures e.lastModified == date && e.changeFrequency == Weekly && e.priority == 0.8
  {
    SitemapEntry(BaseUrl + "/prompts/" + prompt.slug, date, Weekly, 0.8)
  }

  /** The slugs pushed when the scan throws. */
  const FallbackTutorialSlugs: seq<string> := [
    "getting-started",
    "character-consistency",
    "multi-turn-editing",
    "building-cinematic-universes",
    "product-photography-with-ai",
    "api-integration",
    "style-transfer-techniques",
    "advanced-techniques",
    "prompt-engineering"]

  /** What the directory scan produced: the slugs it yielded, in order, and
      whether it then threw. */
  datatype TutorialScan = TutorialScan(slugs: seq<string>, failed: bool)

  /** The slugs that end up in `tutorialPages`: the fallback list is appended
      to what was already pushed, which is not cleared. */
  function TutorialSlugs(scan: TutorialScan): (slugs: seq<string>)
    ensures |slugs| == |scan.slugs| + (if scan.failed then 9 else 0)
    ensures slugs[..|scan.slugs|] == scan.slugs
    ensures slugs[|scan.slugs|..] == if scan.failed then FallbackTutorialSlugs else []
  {
    scan.slugs + (if scan.failed then FallbackTutorialSlugs else [])
  }

  /** The tutorial entries, one per slug of `TutorialSlugs`, in order. */
  function TutorialPages(scan: TutorialScan, date: string): (pages: seq<SitemapEntry>)
    ensures |pages| == |TutorialSlugs(scan)|
    ensures forall i :: 0 <= i < |pages| ==> pages[i] == TutorialEntry(TutorialSlugs(scan)[i], date)
  {
    var slugs := TutorialSlugs(scan);
    seq(|slugs|, i requires 0 <= i < |slugs| => TutorialEntry(slugs[i], date))
  }

  /** The prompt entries, one per prompt, in catalogue order. */
  function PromptPages(prompts: seq<PromptData.Prompt>, date: string): (pages: seq<SitemapEntry>)
    ensures |pages| == |prompts|
    ensures forall i :: 0 <= i < |prompts| ==> pages[i] == PromptEntry(prompts[i], date)
  {
    seq(|prompts|, i requires 0 <= i < |prompts| => PromptEntry(prompts[i], date))
  }

  /** The `tutorialPages` array, filled by `push` inside the scan loop and,
      when the scan throws, by the fallback list. */
  method CollectTutorialPages(scan: TutorialScan, date: string) returns (tutorialPages: seq<SitemapEntry>)
    ensures |tutorialPages| == |scan.slugs| + (if scan.failed then |FallbackTutorialSlugs| else 0)
    ensures forall i :: 0 <= i < |scan.slugs| ==> tutorialPages[i] == TutorialEntry(scan.slugs[i], date)
    ensures scan.failed ==> forall i :: 0 <= i < |FallbackTutorialSlugs| ==>
      tutorialPages[|scan.slugs| + i] == TutorialEntry(FallbackTutorialSlugs[i], date)
    ensures tutorialPages == TutorialPages(scan, date)
  {
    tutorialPages := [];
    var i := 0;
    while i < |scan.slugs|
      invariant 0 <= i <= |scan.slugs|
      invariant |tutorialPages| == i
      invariant forall j :: 0 <= j < i ==> tutorialPages[j] == TutorialEntry(scan.slugs[j], date)
    {
      tutorialPages := tutorialPages + [TutorialEntry(scan.slugs[i], date)];
      i := i + 1;
    }
    if scan.failed {
      var fallback := FallbackTutorialSlugs;
      tutorialPages := tutorialPages +
        seq(|fallback|, k requires 0 <= k < |fallback| => TutorialEntry(fallback[k], date));
    }
  }

  /** Each entry's priority is at least that of the next one. */
  predicate NonIncreasing(s: seq<SitemapEntry>)
    decreases |s|
  {
    |s| <= 1 || (s[0].priority >= s[1].priority && NonIncreasing(s[1..]))
  }

  /** In a non-increasing list every entry's priority is at least that of
      every later entry. */
  lemma {:induction false} NonIncreasingPairwise(s: seq<SitemapEntry>, i: int, j: int)
    requires NonIncreasing(s)
    requires 0 <= i <= j < |s|
    ensures s[i].priority >= s[j].priority
    decreases j
  {
    if i < j {
      NonIncreasingPairwise(s, i, j - 1);
      NonIncreasingStep(s, j - 1);
    }
  }

  lemma {:induction false} NonIncreasingStep(s: seq<SitemapEntry>, k: int)
    requires NonIncreasing(s)
    requires 0 <= k < |s| - 1
    ensures s[k].priority >= s[k + 1].priority
    decreases k
  {
    if k > 0 {
      NonIncreasingStep(s[1..], k - 1);
    }
  }

  /** Inserts `x` into a sorted list in front of the first entry whose
      priority does not exceed its own. */
  function InsertByPriority(x: SitemapEntry, sorted: seq<SitemapEntry>): (r: seq<SitemapEntry>)
    requires NonIncreasing(sorted)
    ensures NonIncreasing(r)
    ensures multiset(r) == multiset(sorted) + multiset{x}
    ensures r[0] == x || (sorted != [] && r[0] == sorted[0])
    decreases |sorted|
  {
    if sorted == [] || sorted[0].priority <= x.priority then
      assert ([x] + sorted)[1..] == sorted;
      [x] + sorted
    else
      var rest := InsertByPriority(x, sorted[1..]);
      assert sorted == [sorted[0]] + sorted[1..];
      assert ([sorted[0]] + rest)[1..] == rest;
      [sorted[0]] + rest
  }

  /** `allPages.sort((a, b) => b.priority - a.priority)`: the sort of the
      JavaScript engine is stable, so entries of equal priority keep their
      order. */
  function SortByPriority(s: seq<SitemapEntry>): (r: seq<SitemapEntry>)
    ensures NonIncreasing(r)
    ensures multiset(r) == multiset(s)
    decreases |s|
  {
    if s == [] then []
    else
      assert s == [s[0]] + s[1..];
      InsertByPriority(s[0], SortByPriority(s[1..]))
  }

  /** The entries of priority `p`, in order. */
  function WithPriority(s: seq<SitemapEntry>, p: real): seq<SitemapEntry>
    decreases |s|
  {
    if s == [] then []
    else (if s[0].priority == p then [s[0]] else []) + WithPriority(s[1..], p)
  }

  /** Filtering a list with a new first entry. */
  lemma WithPriorityCons(e: SitemapEntry, s: seq<SitemapEntry>, p: real)
    ensures WithPriority([e] + s, p) == (if e.priority == p then [e] else []) + WithPriority(s, p)
  {
    assert ([e] + s)[1..] == s;
  }

  lemma {:induction false} InsertKeepsOrder(x: SitemapEntry, sorted: seq<SitemapEntry>, p: real)
    requires NonIncreasing(sorted)
    ensures WithPriority(InsertByPriority(x, sorted), p) ==
      (if x.priority == p then [x] else []) + WithPriority(sorted, p)
    decreases |sorted|
  {
    if sorted == [] || sorted[0].priority <= x.priority {
      WithPriorityCons(x, sorted, p);
    } else {
      var head, tail := sorted[0], sorted[1..];
      var rest := InsertByPriority(x, tail);
      assert InsertByPriority(x, sorted) == [head] + rest;
      InsertKeepsOrder(x, tail, p);
      WithPriorityCons(head, rest, p);
      assert sorted == [head] + tail;
      WithPriorityCons(head, tail, p);
      var wt := WithPriority(tail, p);
      if x.priority == p {
        assert head.priority != p;
        assert WithPriority([head] + rest, p) == [] + ([x] + wt);
        assert WithPriority(sorted, p) == [] + wt;
        assert [] + ([x] + wt) == [x] + ([] + wt);
      } else if head.priority == p {
        assert WithPriority([head] + rest, p) == [head] + ([] + wt);
        assert WithPriority(sorted, p) == [head] + wt;
        assert [head] + ([] + wt) == [] + ([head] + wt);
      } else {
        assert WithPriority([head] + rest, p) == [] + ([] + wt);
        assert WithPriority(sorted, p) == [] + wt;
        assert [] + ([] + wt) == [] + ([] + wt);
      }
    }
  }

  /** The sort is stable: for every priority, the entries of that priority
      appear in the same order as in the input. */
  lemma {:induction false} SortIsStable(s: seq<SitemapEntry>, p: real)
    ensures WithPriority(SortByPriority(s), p) == WithPriority(s, p)
    decreases |s|
  {
    if s != [] {
      SortIsStable(s[1..], p);
      InsertKeepsOrder(s[0], SortByPriority(s[1..]), p);
    }
  }

  /** A list that starts with an entry of priority `p` lists it first among
      the entries of priority `p`. */
  lemma WithPriorityHead(s: seq<SitemapEntry>)
    requires s != []
    ensures WithPriority(s, s[0].priority) != [] && WithPriority(s, s[0].priority)[0] == s[0]
  {
  }

  /** Entries of a given priority are drawn from the list. */
  lemma {:induction false} WithPriorityMembers(s: seq<SitemapEntry>, p: real)
    ensures forall e :: e in WithPriority(s, p) <==> e in s && e.priority == p
    decreases |s|
  {
    if s != [] {
      WithPriorityMembers(s[1..], p);
      assert forall e :: e in s <==> e == s[0] || e in s[1..];
    }
  }

  /** The list before sorting. */
  function AllPages(date: string, scan: TutorialScan, prompts: seq<PromptData.Prompt>): (all: seq<SitemapEntry>)
    ensures |all| == 11 + |TutorialSlugs(scan)| + |prompts|
    ensures all[0] == RootEntry(date)
  {
    StaticPages(date) + TutorialPages(scan, date) + PromptPages(prompts, date)
  }

  /** Every entry's priority lies in [0.3, 1], and the home page is the only
      entry of priority 1. */
  lemma {:induction false} AllPagesPriorities(date: string, scan: TutorialScan, prompts: seq<PromptData.Prompt>)
    ensures forall i :: 0 <= i < |AllPages(date, scan, prompts)| ==>
      0.3 <= AllPages(date, scan, prompts)[i].priority <= 1.0
    ensures WithPriority(AllPages(date, scan, prompts), 1.0) == [RootEntry(date)]
  {
    var st, tu, pr := StaticPages(date), TutorialPages(scan, date), PromptPages(prompts, date);
    var all := AllPages(date, scan, prompts);
    assert all == st + (tu + pr);
    var rest := tu + pr;
    assert forall i :: 0 <= i < |rest| ==> rest[i].priority == 0.8 by {
      forall i | 0 <= i < |rest| ensures rest[i].priority == 0.8 {
        if i < |tu| { assert rest[i] == tu[i]; } else { assert rest[i] == pr[i - |tu|]; }
      }
    }
    StaticPagesPriorities(date);
    forall i | 0 <= i < |all| ensures 0.3 <= all[i].priority <= 1.0 {
      if i < |st| { assert all[i] == st[i]; } else { assert all[i] == rest[i - |st|]; }
    }
    WithPriorityAppend(st, rest, 1.0);
    NoneOfPriority(rest, 1.0);
    assert st == [st[0]] + st[1..];
    NoneOfPriority(st[1..], 1.0);
  }

  /** Every priority the sitemap emits is within the range the Sitemap
      protocol allows. */
  lemma PrioritiesWithinProtocol(date: string, scan: TutorialScan, prompts: seq<PromptData.Prompt>)
    ensures forall i :: 0 <= i < |AllPages(date, scan, prompts)| ==>
      ValidPriority(AllPages(date, scan, prompts)[i].priority)
  {
    AllPagesPriorities(date, scan, prompts);
  }

  /** The static priorities lie in [0.3, 1], and only the home page has 1. */
  lemma StaticPagesPriorities(date: string)
    ensures forall i :: 0 <= i < |StaticPages(date)| ==> 0.3 <= StaticPages(date)[i].priority <= 1.0
    ensures StaticPages(date)[0].priority == 1.0
    ensures forall i :: 1 <= i < |StaticPages(date)| ==> StaticPages(date)[i].priority < 1.0
  {
  }

  lemma {:induction false} WithPriorityAppend(a: seq<SitemapEntry>, b: seq<SitemapEntry>, p: real)
    ensures WithPriority(a + b, p) == WithPriority(a, p) + WithPriority(b, p)
    decreases |a|
  {
    if a == [] {
      assert a + b == b;
    } else {
      WithPriorityAppend(a[1..], b, p);
      assert a + b == [a[0]] + (a[1..] + b);
      WithPriorityCons(a[0], a[1..] + b, p);
      assert a == [a[0]] + a[1..];
      WithPriorityCons(a[0], a[1..], p);
    }
  }

  lemma {:induction false} NoneOfPriority(s: seq<SitemapEntry>, p: real)
    requires forall i :: 0 <= i < |s| ==> s[i].priority != p
    ensures WithPriority(s, p) == []
    decreases |s|
  {
    if s != [] {
      NoneOfPriority(s[1..], p);
    }
  }

  /** `sitemap()`: the sorted list of all entries. */
  method BuildSitemap(date: string, scan: TutorialScan, prompts: seq<PromptData.Prompt>)
    returns (entries: seq<SitemapEntry>)
    ensures entries == SortByPriority(AllPages(date, scan, prompts))
    ensures NonIncreasing(entries)
    ensures multiset(entries) == multiset(AllPages(date, scan, prompts))
    ensures |entries| == 11 + |TutorialSlugs(scan)| + |prompts|
    ensures forall i :: 0 <= i < |entries| ==> 0.3 <= entries[i].priority <= 1.0
    ensures entries[0] == RootEntry(date)
  {
    var staticPages := StaticPages(date);
    var tutorialPages := CollectTutorialPages(scan, date);
    var promptDetailPages := PromptPages(prompts, date);
    var allPages := staticPages + tutorialPages + promptDetailPages;
    assert allPages == AllPages(date, scan, prompts);
    AllPagesPriorities(date, scan, prompts);
    HomeStaysFirst(allPages, RootEntry(date));
    entries := SortByPriority(allPages);
  }

  /** A permutation keeps every priority bound of its input. */
  lemma PermutationKeepsRange(a: seq<SitemapEntry>, b: seq<SitemapEntry>, lo: real, hi: real)
    requires multiset(a) == multiset(b)
    requires forall i :: 0 <= i < |a| ==> lo <= a[i].priority <= hi
    ensures |b| == |a|
    ensures forall i :: 0 <= i < |b| ==> lo <= b[i].priority <= hi
  {
    assert |a| == |multiset(a)| == |multiset(b)| == |b|;
    forall i | 0 <= i < |b| ensures lo <= b[i].priority <= hi {
      assert b[i] in multiset(a);
      var j :| 0 <= j < |a| && a[j] == b[i];
    }
  }

  /** When the first entry of a list is the only one of the highest
      priority, the stable sort keeps it first. */
  lemma {:induction false} UniqueMaximumStaysFirst(s: seq<SitemapEntry>, top: real)
    requires s != [] && s[0].priority == top
    requires forall i :: 0 <= i < |s| ==> s[i].priority <= top
    requires WithPriority(s, top) == [s[0]]
    ensures SortByPriority(s) != [] && SortByPriority(s)[0] == s[0]
  {
    var sorted := SortByPriority(s);
    assert |sorted| == |multiset(sorted)| == |multiset(s)| == |s|;
    assert s[0] in multiset(sorted);
    var k :| 0 <= k < |sorted| && sorted[k] == s[0];
    NonIncreasingPairwise(sorted, 0, k);
    assert sorted[0] in multiset(s);
    var j :| 0 <= j < |s| && s[j] == sorted[0];
    assert sorted[0].priority == top;
    SortIsStable(s, top);
    WithPriorityHead(sorted);
  }

  /** What the sorted sitemap promises about any page list headed by the
      only page of top priority: length and priority range survive the sort,
      and that page stays in front. */
  lemma HomeStaysFirst(all: seq<SitemapEntry>, home: SitemapEntry)
    requires |all| >= 1 && all[0] == home && home.priority == 1.0
    requires forall i :: 0 <= i < |all| ==> 0.3 <= all[i].priority <= 1.0
    requires WithPriority(all, 1.0) == [home]
    ensures |SortByPriority(all)| == |all|
    ensures forall i :: 0 <= i < |SortByPriority(all)| ==> 0.3 <= SortByPriority(all)[i].priority <= 1.0
    ensures SortByPriority(all)[0] == home
  {
    var sorted := SortByPriority(all);
    PermutationKeepsRange(all, sorted, 0.3, 1.0);
    UniqueMaximumStaysFirst(all, 1.0);
  }
}
