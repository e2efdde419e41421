/**
 * The image sitemap served at `/image-sitemap.xml`: one `<url>` block per
 * prompt preview image, then one per tutorial cover, inside a `<urlset>`
 * that declares the Sitemap protocol 0.9 namespace and Google's image
 * extension 1.1 namespace. The document is built from template strings;
 * here those templates are composed from an element builder so that what
 * each block carries can be stated and recovered.
 */
module ImageSitemap {
  import opened Wrappers
  import Js
  import PromptData

  const BaseUrl: string := "https://nanobanana.fans"
  const PromptLastmod: string := "2024-12-26"
  const TutorialLastmod: string := "2024-12-20"
  const SitemapNamespace: string := "http://www.sitemaps.org/schemas/sitemap/0.9"
  const ImageNamespace: string := "http://www.google.com/schemas/sitemap-image/1.1"

  /** An image path as emitted: a leading `/` is added when missing. */
  function NormalizeImagePath(path: string): (p: string)
    ensures |p| >= 1 && p[0] == '/'
    ensures |path| >= 1 && path[0] == '/' ==> p == path
    ensures !(|path| >= 1 && path[0] == '/') ==> p == "/" + path
  {
    if |path| >= 1 && path[0] == '/' then path else "/" + path
  }

  /** Normalising twice is normalising once, and at most one character is
      ever added. */
  lemma NormalizeIdempotent(path: string)
    ensures NormalizeImagePath(NormalizeImagePath(path)) == NormalizeImagePath(path)
    ensures |NormalizeImagePath(path)| <= |path| + 1
    ensures NormalizeImagePath(path)[|NormalizeImagePath(path)| - |path|..] == path
  {
  }

  // ----- XML text construction -----

  /** `open + content + close`. */
  function Wrapped(open: string, content: string, close: string): string
  {
    open + content + close
  }

  /** The text between `open` and `close`, if `s` starts and ends with them. */
  function Unwrapped(open: string, s: string, close: string): (content: Option<string>)
    ensures content.Some? ==> Wrapped(open, content.value, close) == s
  {
    if |s| >= |open| + |close| && s[..|open|] == open && s[|s| - |close|..] == close
    then
      var c := s[|open|..|s| - |close|];
      assert s == s[..|open|] + c + s[|s| - |close|..];
      Some(c)
    else None
  }

  /** Whatever is wrapped can be unwrapped again, unchanged. */
  lemma {:induction false} WrapRoundTrip(open: string, content: string, close: string)
    ensures Unwrapped(open, Wrapped(open, content, close), close) == Some(content)
  {
    var s := Wrapped(open, content, close);
    assert s[..|open|] == open;
    assert s[|s| - |close|..] == close;
    assert s[|open|..|s| - |close|] == content;
  }

  /** `<name>content</name>`. */
  function Element(name: string, content: string): (xml: string)
    ensures |xml| == 2 * |name| + 5 + |content|
  {
    Wrapped("<" + name + ">", content, "</" + name + ">")
  }

  /** `<![CDATA[text]]>`: the text goes in verbatim, without escaping. */
  function CData(text: string): (xml: string)
    ensures |xml| == |text| + 12
  {
    Wrapped("<![CDATA[", text, "]]>")
  }

  /** The element's content and a CDATA section's text come back unchanged. */
  lemma ElementAndCDataRoundTrip(name: string, content: string)
    ensures Unwrapped("<" + name + ">", Element(name, content), "</" + name + ">") == Some(content)
    ensures Unwrapped("<![CDATA[", CData(content), "]]>") == Some(content)
  {
    WrapRoundTrip("<" + name + ">", content, "</" + name + ">");
    WrapRoundTrip("<![CDATA[", content, "]]>");
  }

  /** Whether `sub` occurs in `s` as a contiguous piece. */
  ghost predicate Contains(s: string, sub: string)
  {
    exists i :: OccursAt(s, sub, i)
  }

  /** Whether `sub` occurs in `s` starting at index `i`. */
  ghost predicate OccursAt(s: string, sub: string, i: int)
  {
    0 <= i <= |s| - |sub| && s[i..i + |sub|] == sub
  }

  lemma {:induction false} ContainsEnds(a: string, b: string)
    ensures Contains(a + b, a) && Contains(a + b, b)
  {
    assert OccursAt(a + b, a, 0);
    assert OccursAt(a + b, b, |a|);
  }

  lemma {:induction false} ContainsTransitive(s: string, t: string, u: string)
    requires Contains(s, t) && Contains(t, u)
    ensures Contains(s, u)
  {
    var i :| OccursAt(s, t, i);
    var j :| OccursAt(t, u, j);
    forall k | 0 <= k < |u|
      ensures s[i + j + k] == u[k]
    {
      assert t[j + k] == u[k];
      assert s[i + (j + k)] == t[j + k];
    }
    assert s[i + j..i + j + |u|] == u;
    assert OccursAt(s, u, i + j);
  }

  /** An element holds its content. */
  lemma ElementContains(name: string, content: string)
    ensures Contains(Element(name, content), content)
  {
    var open := "<" + name + ">";
    ContainsEnds(open, content);
    ContainsEnds(open + content, "</" + name + ">");
    ContainsTransitive(Element(name, content), open + content, content);
  }

  // ----- url blocks -----

  /** One `<url>` block's data: the page, its lastmod, the absolute image
      location and the image's title and caption. */
  datatype ImageEntry = ImageEntry(loc: string, lastmod: string, imageLoc: string, title: string, caption: string)

  /** The indented `<image:image>` element of a block. */
  function ImageElement(e: ImageEntry): string
  {
    Element("image:image",
      "\n        " + Element("image:loc", e.imageLoc) +
      "\n        " + Element("image:title", CData(e.title)) +
      "\n        " + Element("image:caption", CData(e.caption)) +
      "\n      ")
  }

  /** The lines inside one `<url>` element. */
  function UrlContent(e: ImageEntry): string
  {
    "\n      " + Element("loc", e.loc) +
    "\n      " + Element("lastmod", e.lastmod) +
    "\n      " + ImageElement(e) +
    "\n    "
  }

  /** An indented `<url>` element starts with its indentation and unwraps
      to its content. */
  lemma {:induction false} IndentedUrlShape(content: string)
    ensures |"\n    " + Element("url", content)| > 5
    ensures ("\n    " + Element("url", content))[..5] == "\n    "
    ensures Unwrapped("<url>", ("\n    " + Element("url", content))[5..], "</url>") == Some(content)
  {
    WrapRoundTrip("<url>", content, "</url>");
    assert Element("url", content) == Wrapped("<url>", content, "</url>");
    assert ("\n    " + Element("url", content))[5..] == Element("url", content);
  }

  /** The indented `<url>` block the route emits for one entry. */
  function UrlBlock(e: ImageEntry): (block: string)
    ensures |block| > 5 && block[..5] == "\n    "
    ensures Unwrapped("<url>", block[5..], "</url>") == Some(UrlContent(e))
  {
    IndentedUrlShape(UrlContent(e));
    "\n    " + Element("url", UrlContent(e))
  }

  /** The image element holds the image location, and the title and
      caption verbatim inside CDATA sections. */
  lemma {:induction false} ImageElementCarries(e: ImageEntry)
    ensures Contains(ImageElement(e), Element("image:loc", e.imageLoc))
    ensures Contains(ImageElement(e), Element("image:title", CData(e.title)))
    ensures Contains(ImageElement(e), Element("image:caption", CData(e.caption)))
  {
    var imageLoc := Element("image:loc", e.imageLoc);
    var title := Element("image:title", CData(e.title));
    var caption := Element("image:caption", CData(e.caption));
    var p1 := "\n        " + imageLoc;
    var p2 := p1 + "\n        ";
    var p3 := p2 + title;
    var p4 := p3 + "\n        ";
    var p5 := p4 + caption;
    var body := p5 + "\n      ";
    var img := ImageElement(e);
    ElementContains("image:image", body);
    ContainsEnds(p5, "\n      ");
    ContainsTransitive(img, body, p5);
    ContainsEnds(p4, caption);
    ContainsTransitive(img, p5, caption);
    ContainsEnds(p3, "\n        ");
    ContainsTransitive(img, p5, p4);
    ContainsTransitive(img, p4, p3);
    ContainsEnds(p2, title);
    ContainsTransitive(img, p3, title);
    ContainsEnds(p1, "\n        ");
    ContainsTransitive(img, p3, p2);
    ContainsTransitive(img, p2, p1);
    ContainsEnds("\n        ", imageLoc);
    ContainsTransitive(img, p1, imageLoc);
  }

  /** The block carries the page location, the lastmod and the image
      element. */
  lemma {:induction false} UrlBlockCarries(e: ImageEntry)
    ensures Contains(UrlBlock(e), Element("loc", e.loc))
    ensures Contains(UrlBlock(e), Element("lastmod", e.lastmod))
    ensures Contains(UrlBlock(e), ImageElement(e))
  {
    var loc := Element("loc", e.loc);
    var lastmod := Element("lastmod", e.lastmod);
    var img := ImageElement(e);
    var p1 := "\n      " + loc;
    var p2 := p1 + "\n      ";
    var p3 := p2 + lastmod;
    var p4 := p3 + "\n      ";
    var p5 := p4 + img;
    var body := p5 + "\n    ";
    var url := Element("url", body);
    var block := UrlBlock(e);
    ContainsEnds("\n    ", url);
    ElementContains("url", body);
    ContainsTransitive(block, url, body);
    ContainsEnds(p5, "\n    ");
    ContainsTransitive(block, body, p5);
    ContainsEnds(p4, img);
    ContainsTransitive(block, p5, img);
    ContainsEnds(p3, "\n      ");
    ContainsTransitive(block, p5, p4);
    ContainsTransitive(block, p4, p3);
    ContainsEnds(p2, lastmod);
    ContainsTransitive(block, p3, lastmod);
    ContainsEnds(p1, "\n      ");
    ContainsTransitive(block, p3, p2);
    ContainsTransitive(block, p2, p1);
    ContainsEnds("\n      ", loc);
    ContainsTransitive(block, p1, loc);
  }

  /** Everything an entry holds appears in its block: the page location,
      the lastmod, the image location, and the title and caption verbatim
      inside CDATA sections. */
  lemma {:induction false} UrlBlockFields(e: ImageEntry)
    ensures Contains(UrlBlock(e), Element("loc", e.loc))
    ensures Contains(UrlBlock(e), Element("lastmod", e.lastmod))
    ensures Contains(UrlBlock(e), Element("image:loc", e.imageLoc))
    ensures Contains(UrlBlock(e), Element("image:title", CData(e.title)))
    ensures Contains(UrlBlock(e), Element("image:caption", CData(e.caption)))
  {
    UrlBlockCarries(e);
    ImageElementCarries(e);
    ContainsTransitive(UrlBlock(e), ImageElement(e), Element("image:loc", e.imageLoc));
    ContainsTransitive(UrlBlock(e), ImageElement(e), Element("image:title", CData(e.title)));
    ContainsTransitive(UrlBlock(e), ImageElement(e), Element("image:caption", CData(e.caption)));
  }

  // ----- entries -----

  /** `loc` is the base URL, then one `/`, then `path` without its own
      leading `/` if it had one. */
  ghost predicate ImageLocOf(loc: string, path: string)
  {
    |loc| > |BaseUrl| && loc[..|BaseUrl|] == BaseUrl && loc[|BaseUrl|] == '/' &&
    loc[|BaseUrl| + 1..] == (if |path| >= 1 && path[0] == '/' then path[1..] else path)
  }

  /** The absolute location of an image path. */
  function ImageLoc(path: string): (loc: string)
    ensures ImageLocOf(loc, path)
  {
    var p := NormalizeImagePath(path);
    assert (BaseUrl + p)[..|BaseUrl|] == BaseUrl;
    assert (BaseUrl + p)[|BaseUrl|..] == p;
    BaseUrl + p
  }

  /** The block for one prompt: its detail page, the fixed prompt lastmod,
      and its preview image under the site's base URL. */
  function PromptImageEntry(prompt: PromptData.Prompt): (e: ImageEntry)
    ensures e.loc == BaseUrl + PromptData.PromptPath(prompt.slug)
    ensures e.lastmod == PromptLastmod
    ensures ImageLocOf(e.imageLoc, prompt.previewImage)
    ensures e.title == prompt.title && e.caption == prompt.description
  {
    ImageEntry(BaseUrl + "/prompts/" + prompt.slug, PromptLastmod,
      ImageLoc(prompt.previewImage), prompt.title, prompt.description)
  }

  /** One of the three hard-coded tutorial covers. */
  datatype TutorialImage = TutorialImage(url: string, image: string, title: string, caption: string)

  const TutorialImages: seq<TutorialImage> := [
    TutorialImage(BaseUrl + "/tutorials/getting-started",
      "/Google-Nano-Banana-AI-Image-Generator-All-You-Need-To-Know.jpg",
      "Getting Started with Nano Banana AI",
      "Complete beginner's guide to Google's revolutionary AI image editing tool"),
    TutorialImage(BaseUrl + "/tutorials/character-consistency",
      "/new-tutorial-master-consistent-character-faces-with-nanobanana.webp",
      "Character Consistency Mastery",
      "Master the art of maintaining character likeness across multiple edits"),
    TutorialImage(BaseUrl + "/tutorials/multi-turn-editing",
      "/Multi-Turn Editing.avif",
      "Multi-Turn Editing Techniques",
      "Advanced strategies for complex multi-step edits while preserving quality")
  ]

  /** The block for a tutorial cover, with the fixed tutorial lastmod. */
  function TutorialImageEntry(t: TutorialImage): (e: ImageEntry)
    ensures e.loc == t.url && e.lastmod == TutorialLastmod
    ensures ImageLocOf(e.imageLoc, t.image)
    ensures e.title == t.title && e.caption == t.caption
  {
    ImageEntry(t.url, TutorialLastmod, ImageLoc(t.image), t.title, t.caption)
  }

  /** All entries in document order: the prompts first, then the tutorials. */
  function Entries(prompts: seq<PromptData.Prompt>): (entries: seq<ImageEntry>)
    ensures |entries| == |prompts| + |TutorialImages|
    ensures forall i :: 0 <= i < |prompts| ==> entries[i] == PromptImageEntry(prompts[i])
    ensures forall k :: 0 <= k < |TutorialImages| ==>
      entries[|prompts| + k] == TutorialImageEntry(TutorialImages[k])
  {
    seq(|prompts|, i requires 0 <= i < |prompts| => PromptImageEntry(prompts[i])) +
    seq(|TutorialImages|, k requires 0 <= k < |TutorialImages| => TutorialImageEntry(TutorialImages[k]))
  }

  function Blocks(entries: seq<ImageEntry>): (blocks: seq<string>)
    ensures |blocks| == |entries|
    ensures forall i :: 0 <= i < |entries| ==> blocks[i] == UrlBlock(entries[i])
  {
    seq(|entries|, i requires 0 <= i < |entries| => UrlBlock(entries[i]))
  }

  // ----- the document -----

  const XmlDeclaration: string := "<?xml version=\"1.0\" encoding=\"UTF-8\"?>\n"
  const SitemapNamespaceAttribute: string := "xmlns=\"" + SitemapNamespace + "\""
  const ImageNamespaceAttribute: string := "xmlns:image=\"" + ImageNamespace + "\""

  /** The XML declaration and the `<urlset>` start tag with both namespaces. */
  const Header: string :=
    XmlDeclaration + "<urlset " + SitemapNamespaceAttribute + "\n        " + ImageNamespaceAttribute + ">\n"

  const Footer: string := "\n</urlset>"

  /** The response body of `GET /image-sitemap.xml`. */
  function Document(prompts: seq<PromptData.Prompt>): (doc: string)
    ensures Unwrapped(Header, doc, Footer) == Some(Js.Concat(Blocks(Entries(prompts))))
  {
    var blocks := Js.Concat(Blocks(Entries(prompts)));
    WrapRoundTrip(Header, blocks, Footer);
    Header + blocks + Footer
  }

  /** `Concat` of a list is the `Concat` of any prefix followed by that of
      the rest. */
  lemma ConcatSplit(pieces: seq<string>, n: nat)
    requires n <= |pieces|
    ensures Js.Concat(pieces) == Js.Concat(pieces[..n]) + Js.Concat(pieces[n..])
  {
    assert pieces == pieces[..n] + pieces[n..];
    Js.ConcatAppend(pieces[..n], pieces[n..]);
  }

  lemma Associative(h: string, a: string, b: string, f: string)
    ensures h + (a + b) + f == h + a + b + f
  {
  }

  /** The document is the header, the prompt blocks in catalogue order, the
      three tutorial blocks, and the footer. */
  lemma {:induction false} DocumentLayout(prompts: seq<PromptData.Prompt>)
    ensures Document(prompts) ==
      Header +
      Js.Concat(Blocks(Entries(prompts))[..|prompts|]) +
      Js.Concat(Blocks(Entries(prompts))[|prompts|..]) +
      Footer
    ensures |Blocks(Entries(prompts))| == |prompts| + 3
  {
    var blocks := Blocks(Entries(prompts));
    ConcatSplit(blocks, |prompts|);
    Associative(Header, Js.Concat(blocks[..|prompts|]), Js.Concat(blocks[|prompts|..]), Footer);
  }

  /** The root element declares both namespaces. */
  lemma {:induction false} DocumentDeclaresNamespaces(prompts: seq<PromptData.Prompt>)
    ensures Contains(Document(prompts), SitemapNamespaceAttribute)
    ensures Contains(Document(prompts), ImageNamespaceAttribute)
  {
    var doc := Document(prompts);
    var h1 := XmlDeclaration + "<urlset ";
    var h2 := h1 + SitemapNamespaceAttribute;
    var h3 := h2 + "\n        ";
    var h4 := h3 + ImageNamespaceAttribute;
    var body := Js.Concat(Blocks(Entries(prompts)));
    ContainsEnds(Header + body, Footer);
    ContainsEnds(Header, body);
    ContainsTransitive(doc, Header + body, Header);
    ContainsEnds(h4, ">\n");
    ContainsTransitive(doc, Header, h4);
    ContainsEnds(h3, ImageNamespaceAttribute);
    ContainsTransitive(doc, h4, ImageNamespaceAttribute);
    ContainsTransitive(doc, h4, h3);
    ContainsEnds(h2, "\n        ");
    ContainsTransitive(doc, h3, h2);
    ContainsEnds(h1, SitemapNamespaceAttribute);
    ContainsTransitive(doc, h2, SitemapNamespaceAttribute);
  }
}
