/**
 * The SEO records a tutorial page publishes (lib/tutorial-utils.ts): the
 * page metadata with its OpenGraph and Twitter cards, the breadcrumb trail,
 * and the Schema.org article data. All three are built from one
 * `TutorialData` record by string concatenation.
 */
module TutorialUtils {
  import opened Wrappers
  import opened TutorialTypes

  const BaseUrl: string := "https://nanobanana.fans"
  const TitleSuffix: string := " | Nano Banana Fans"
  const MidnightSuffix: string := "T00:00:00.000Z"
  const CoverAltSuffix: string := " Tutorial Cover"
  const TutorialsPrefix: string := "/tutorials/"

  datatype OpenGraphImage = OpenGraphImage(url: string, width: int, height: int, alt: string)

  datatype OpenGraph = OpenGraph(
    title: string,
    description: string,
    ogType: string,
    publishedTime: string,
    modifiedTime: string,
    authors: seq<string>,
    tags: seq<string>,
    images: seq<OpenGraphImage>)

  datatype TwitterCard = TwitterCard(card: string, title: string, description: string, images: seq<string>)

  datatype Metadata = Metadata(
    title: string,
    description: string,
    keywords: string,
    authors: seq<string>,
    openGraph: OpenGraph,
    twitter: TwitterCard)

  /** `s` with `suffix` removed from its end, if it ends with it. */
  function StripSuffix(s: string, suffix: string): (r: Option<string>)
    ensures r.Some? <==> |s| >= |suffix| && s[|s| - |suffix|..] == suffix
    ensures r.Some? ==> r.value + suffix == s
  {
    if |s| >= |suffix| && s[|s| - |suffix|..] == suffix then
      assert s == s[..|s| - |suffix|] + s[|s| - |suffix|..];
      Some(s[..|s| - |suffix|])
    else None
  }

  /** Removing an appended suffix gives back what it was appended to. */
  lemma StripAppended(s: string, suffix: string)
    ensures StripSuffix(s + suffix, suffix) == Some(s)
  {
    assert (s + suffix)[|s|..] == suffix;
    assert (s + suffix)[..|s|] == s;
  }

  /** The canonical address of a tutorial, `${BASE_URL}/tutorials/${slug}`. */
  function TutorialUrl(slug: string): (url: string)
    ensures |url| == |BaseUrl| + |TutorialsPrefix| + |slug|
  {
    BaseUrl + TutorialsPrefix + slug
  }

  /** The slug a canonical tutorial address names, if it is one. */
  function SlugOfTutorialUrl(url: string): (slug: Option<string>)
    ensures slug.Some? ==> TutorialUrl(slug.value) == url
  {
    var prefix := BaseUrl + TutorialsPrefix;
    if |url| >= |prefix| && url[..|prefix|] == prefix then
      assert url == url[..|prefix|] + url[|prefix|..];
      Some(url[|prefix|..])
    else None
  }

  /** Every tutorial address names its slug back. */
  lemma TutorialUrlRoundTrip(slug: string)
    ensures SlugOfTutorialUrl(TutorialUrl(slug)) == Some(slug)
  {
    var prefix := BaseUrl + TutorialsPrefix;
    assert TutorialUrl(slug) == prefix + slug;
    assert (prefix + slug)[..|prefix|] == prefix;
    assert (prefix + slug)[|prefix|..] == slug;
  }

  /** `generateTutorialMetadata(tutorial)`. */
  function GenerateTutorialMetadata(t: TutorialData): (m: Metadata)
    ensures m.title == t.title + TitleSuffix
    ensures m.openGraph.title == t.title && m.twitter.title == t.title
    ensures m.description == t.description && m.openGraph.description == t.description &&
            m.twitter.description == t.description
    ensures m.openGraph.publishedTime == t.publishedAt + MidnightSuffix
    ensures m.openGraph.modifiedTime == t.updatedAt + MidnightSuffix
    ensures m.openGraph.images == [OpenGraphImage(t.seo.ogImage, 1200, 630, t.title + CoverAltSuffix)]
    ensures m.twitter.images == [m.openGraph.images[0].url]
    ensures m.authors == [t.author.name] && m.openGraph.authors == [t.author.name]
    ensures m.openGraph.tags == t.tags && m.keywords == t.seo.keywords
    ensures m.openGraph.ogType == "article" && m.twitter.card == "summary_large_image"
  {
    var fullTitle := t.title + TitleSuffix;
    Metadata(
      fullTitle,
      t.description,
      t.seo.keywords,
      [t.author.name],
      OpenGraph(
        t.title,
        t.description,
        "article",
        t.publishedAt + MidnightSuffix,
        t.updatedAt + MidnightSuffix,
        [t.author.name],
        t.tags,
        [OpenGraphImage(t.seo.ogImage, 1200, 630, t.title + CoverAltSuffix)]),
      TwitterCard("summary_large_image", t.title, t.description, [t.seo.ogImage]))
  }

  /** The page title, the publication times and the cover's alt text each
      give back the tutorial's own title and dates. */
  lemma MetadataRecoversTutorial(t: TutorialData)
    ensures StripSuffix(GenerateTutorialMetadata(t).title, TitleSuffix) == Some(t.title)
    ensures StripSuffix(GenerateTutorialMetadata(t).openGraph.publishedTime, MidnightSuffix) == Some(t.publishedAt)
    ensures StripSuffix(GenerateTutorialMetadata(t).openGraph.modifiedTime, MidnightSuffix) == Some(t.updatedAt)
    ensures StripSuffix(GenerateTutorialMetadata(t).openGraph.images[0].alt, CoverAltSuffix) == Some(t.title)
  {
    StripAppended(t.title, TitleSuffix);
    StripAppended(t.publishedAt, MidnightSuffix);
    StripAppended(t.updatedAt, MidnightSuffix);
    StripAppended(t.title, CoverAltSuffix);
  }

  /** The page titles of two tutorials are equal only when their own titles
      are. */
  lemma MetadataTitleInjective(t: TutorialData, u: TutorialData)
    requires GenerateTutorialMetadata(t).title == GenerateTutorialMetadata(u).title
    ensures t.title == u.title
  {
    MetadataRecoversTutorial(t);
    MetadataRecoversTutorial(u);
  }

  datatype BreadcrumbItem = BreadcrumbItem(name: string, url: string)

  /** `generateBreadcrumbItems(tutorial)`: home, the tutorial index, the
      tutorial. */
  function GenerateBreadcrumbItems(t: TutorialData): (items: seq<BreadcrumbItem>)
    ensures |items| == 3
    ensures items[0] == BreadcrumbItem("Home", BaseUrl)
    ensures items[1] == BreadcrumbItem("Tutorials", BaseUrl + "/tutorials")
    ensures items[2] == BreadcrumbItem(t.title, TutorialUrl(t.slug))
    ensures SlugOfTutorialUrl(items[2].url) == Some(t.slug)
  {
    TutorialUrlRoundTrip(t.slug);
    [ BreadcrumbItem("Home", BaseUrl),
      BreadcrumbItem("Tutorials", BaseUrl + "/tutorials"),
      BreadcrumbItem(t.title, BaseUrl + "/tutorials/" + t.slug) ]
  }

  /** Each breadcrumb's address extends the one before it. */
  lemma BreadcrumbsNest(t: TutorialData)
    ensures forall i :: 0 <= i < 2 ==>
      var items := GenerateBreadcrumbItems(t);
      |items[i].url| < |items[i + 1].url| && items[i + 1].url[..|items[i].url|] == items[i].url
  {
    var items := GenerateBreadcrumbItems(t);
    assert items[1].url == BaseUrl + "/tutorials";
    assert items[2].url == (BaseUrl + "/tutorials") + ("/" + t.slug);
    assert items[1].url[..|BaseUrl|] == BaseUrl;
    assert items[2].url[..|items[1].url|] == items[1].url;
  }

  datatype SchemaAuthor = SchemaAuthor(name: string, authorType: string)

  datatype SchemaRating = SchemaRating(value: real, count: int)

  datatype SchemaOrgData = SchemaOrgData(
    title: string,
    description: string,
    url: string,
    image: string,
    datePublished: string,
    dateModified: string,
    author: SchemaAuthor,
    keywords: seq<string>,
    category: TutorialCategory,
    difficulty: TutorialDifficulty,
    readTime: string,
    rating: SchemaRating)

  /** `generateSchemaOrgData(tutorial)`. */
  function GenerateSchemaOrgData(t: TutorialData): (s: SchemaOrgData)
    ensures s.url == TutorialUrl(t.slug) && SlugOfTutorialUrl(s.url) == Some(t.slug)
    ensures s.title == t.title && s.description == t.description && s.image == t.seo.ogImage
    ensures s.datePublished == t.publishedAt && s.dateModified == t.updatedAt
    ensures s.author == SchemaAuthor(t.author.name, "Person")
    ensures s.keywords == t.tags && s.category == t.category && s.difficulty == t.difficulty
    ensures s.readTime == t.readTime && s.rating == SchemaRating(t.rating, t.ratingCount)
  {
    TutorialUrlRoundTrip(t.slug);
    SchemaOrgData(
      t.title,
      t.description,
      BaseUrl + "/tutorials/" + t.slug,
      t.seo.ogImage,
      t.publishedAt,
      t.updatedAt,
      SchemaAuthor(t.author.name, "Person"),
      t.tags,
      t.category,
      t.difficulty,
      t.readTime,
      SchemaRating(t.rating, t.ratingCount))
  }

  /** The three records agree: the schema address is the last breadcrumb's,
      the schema image is the OpenGraph cover, and the OpenGraph times are
      the schema dates at midnight UTC. */
  lemma SeoRecordsAgree(t: TutorialData)
    ensures GenerateSchemaOrgData(t).url == GenerateBreadcrumbItems(t)[2].url
    ensures GenerateSchemaOrgData(t).image == GenerateTutorialMetadata(t).openGraph.images[0].url
    ensures GenerateTutorialMetadata(t).openGraph.publishedTime == GenerateSchemaOrgData(t).datePublished + MidnightSuffix
    ensures GenerateTutorialMetadata(t).openGraph.modifiedTime == GenerateSchemaOrgData(t).dateModified + MidnightSuffix
  {
    var s := GenerateSchemaOrgData(t);
    var items := GenerateBreadcrumbItems(t);
    assert TutorialUrl(SlugOfTutorialUrl(s.url).value) == s.url;
    assert TutorialUrl(SlugOfTutorialUrl(items[2].url).value) == items[2].url;
  }
}
