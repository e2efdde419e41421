/**
 * The tutorial page record and the category badge colours
 * (types/tutorial.ts). Only the fields the SEO builders and the header read
 * are kept; the hero, table of contents, navigation and comments are
 * presentational.
 */
module TutorialTypes {

  datatype TutorialCategory = Beginner | Intermediate | Advanced | Marketing | Cinematic

  datatype TutorialDifficulty = BeginnerLevel | IntermediateLevel | AdvancedLevel

  datatype TutorialAuthor = TutorialAuthor(name: string, avatar: string, bio: string, followers: string, expertise: string)

  datatype Seo = Seo(keywords: string, ogImage: string)

  datatype TutorialData = TutorialData(
    id: string,
    title: string,
    description: string,
    slug: string,
    author: TutorialAuthor,
    category: TutorialCategory,
    difficulty: TutorialDifficulty,
    tags: seq<string>,
    readTime: string,
    rating: real,
    ratingCount: int,
    views: string,
    publishedAt: string,
    updatedAt: string,
    seo: Seo)

  /** A badge's Tailwind background and text classes. */
  datatype BadgeColors = BadgeColors(bg: string, text: string)

  /** `CATEGORY_COLORS`: defined for every category. */
  function CategoryColors(c: TutorialCategory): BadgeColors
  {
    match c
    case Beginner => BadgeColors("bg-green-100", "text-green-800")
    case Intermediate => BadgeColors("bg-blue-100", "text-blue-800")
    case Advanced => BadgeColors("bg-purple-100", "text-purple-800")
    case Marketing => BadgeColors("bg-orange-100", "text-orange-800")
    case Cinematic => BadgeColors("bg-pink-100", "text-pink-800")
  }

  /** No two categories share a badge background or a badge text colour. */
  lemma CategoryColorsDistinct(c: TutorialCategory, d: TutorialCategory)
    requires c != d
    ensures CategoryColors(c).bg != CategoryColors(d).bg
    ensures CategoryColors(c).text != CategoryColors(d).text
  {
    var bc, bd := CategoryColors(c).bg, CategoryColors(d).bg;
    var tc, td := CategoryColors(c).text, CategoryColors(d).text;
    assert bc[3] != bd[3] || bc[4] != bd[4];
    assert tc[5] != td[5] || tc[6] != td[6];
  }
}
