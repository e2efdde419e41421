/**
 * Vocabulary of the sitemaps.org Sitemap protocol 0.9 ("XML tag
 * definitions"): the `changefreq` values, and the range of `priority`.
 */
module SitemapProtocol {

  /** The values the protocol allows for `<changefreq>`. */
  datatype ChangeFrequency = Always | Hourly | Daily | Weekly | Monthly | Yearly | Never

  /** The protocol's range for `<priority>`: 0.0 to 1.0. */
  predicate ValidPriority(p: real)
  {
    0.0 <= p <= 1.0
  }
}
