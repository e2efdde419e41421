/**
 * The prompt catalogue entry that the cards and both sitemaps read. The
 * catalogue itself (data/prompts) is not part of this model: callers receive
 * it as a sequence of these records.
 */
module PromptData {
  import opened Wrappers

  datatype Prompt = Prompt(
    id: string,
    slug: string,
    title: string,
    description: string,
    prompt: string,
    tags: seq<string>,
    previewImage: string)

  const PromptsPrefix: string := "/prompts/"

  /** The site path of a prompt's detail page, `/prompts/${slug}`. */
  function PromptPath(slug: string): (path: string)
    ensures |path| == |PromptsPrefix| + |slug|
    ensures path[..|PromptsPrefix|] == PromptsPrefix && path[|PromptsPrefix|..] == slug
  {
    PromptsPrefix + slug
  }

  /** The slug a detail-page path names, if it is one. */
  function SlugOfPromptPath(path: string): (slug: Option<string>)
    ensures slug.Some? <==> |path| >= |PromptsPrefix| && path[..|PromptsPrefix|] == PromptsPrefix
    ensures slug.Some? ==> PromptPath(slug.value) == path
  {
    if |path| >= |PromptsPrefix| && path[..|PromptsPrefix|] == PromptsPrefix then
      assert path == path[..|PromptsPrefix|] + path[|PromptsPrefix|..];
      Some(path[|PromptsPrefix|..])
    else None
  }

  /** The path names its slug back: distinct slugs give distinct paths. */
  lemma PromptPathRoundTrip(slug: string)
    ensures SlugOfPromptPath(PromptPath(slug)) == Some(slug)
  {
  }
}
