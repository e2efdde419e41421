/**
 * The tutorial catalogue (data/tutorials.ts): a plain object literal from
 * slug to metadata, read by slug, listed by key, and filtered by
 * difficulty. The literal is kept as its list of (key, record) pairs in
 * source order, which is also the order `Object.keys` and `Object.values`
 * report, since no key is an array index.
 */
module Tutorials {
  import opened Wrappers
  import Js
  import Sitemap

  datatype Difficulty = Beginner | Intermediate | Advanced

  datatype TutorialMetadata = TutorialMetadata(
    slug: string,
    title: string,
    description: string,
    keywords: seq<string>,
    ogImage: Option<string>,
    lastModified: string,
    readingTime: string,
    difficulty: Difficulty)

  /** `tutorialsMetadata`, property by property in source order. */
  const TutorialsMetadata: seq<(string, TutorialMetadata)> := [
    ("getting-started", TutorialMetadata(
      "getting-started",
      "Getting Started with Nano Banana AI - Complete Beginner's Guide",
      "Learn Google's revolutionary Nano Banana AI image editing tool from scratch. Master setup, basic concepts, character consistency, and create your first professional AI-edited images in minutes.",
      ["Nano Banana AI", "Google Gemini", "AI image editing", "getting started", "beginner guide", "character consistency", "AI photo editing", "image manipulation"],
      Some("/Google-Nano-Banana-AI-Image-Generator-All-You-Need-To-Know.jpg"),
      "2024-12-20",
      "15 min read",
      Beginner)),
    ("character-consistency", TutorialMetadata(
      "character-consistency",
      "Master Character Consistency with Nano Banana AI - Advanced Techniques",
      "Learn how to maintain perfect character likeness across multiple AI edits. Discover advanced prompt engineering, reference image techniques, and professional workflows for consistent character design.",
      ["character consistency", "Nano Banana tutorial", "AI character design", "multi-turn editing", "prompt engineering", "Google Gemini AI", "character preservation", "AI art consistency"],
      Some("/new-tutorial-master-consistent-character-faces-with-nanobanana.webp"),
      "2024-12-18",
      "25 min read",
      Intermediate)),
    ("multi-turn-editing", TutorialMetadata(
      "multi-turn-editing",
      "Multi-Turn Editing Mastery - Advanced Nano Banana AI Techniques",
      "Master complex multi-step image edits while preserving quality. Learn selective editing, progressive refinement, layer techniques, and professional workflows for advanced AI image manipulation.",
      ["multi-turn editing", "Nano Banana AI", "advanced image editing", "selective editing", "progressive refinement", "AI layer techniques", "Google Gemini", "professional AI editing"],
      Some("/Multi-Turn Editing.avif"),
      "2024-12-15",
      "35 min read",
      Advanced)),
    ("building-cinematic-universes", TutorialMetadata(
      "building-cinematic-universes",
      "Building Cinematic Universes with Nano Banana - Visual Storytelling",
      "Create cohesive visual worlds for films, games, and stories. Learn environment consistency, style unification, character development, and production workflows using Nano Banana AI.",
      ["cinematic universe", "visual storytelling", "world building", "Nano Banana AI", "environment design", "character development", "AI production workflow", "film concept art"],
      Some("/tutorials/building-cinematic-universes.jpg"),
      "2024-12-10",
      "40 min read",
      Advanced)),
    ("product-photography-with-ai", TutorialMetadata(
      "product-photography-with-ai",
      "Product Photography with Nano Banana AI - E-commerce Image Guide",
      "Transform ordinary product photos into professional e-commerce images. Learn lighting techniques, background removal, lifestyle shots, and batch processing for online stores.",
      ["product photography", "e-commerce images", "Nano Banana AI", "professional product photos", "background removal", "online store photography", "AI product enhancement", "commercial photography"],
      Some("/tutorials/product-photography.jpg"),
      "2024-12-08",
      "30 min read",
      Intermediate)),
    ("api-integration", TutorialMetadata(
      "api-integration",
      "Nano Banana API Integration - Developer Guide & Documentation",
      "Complete guide to integrating Nano Banana AI into your applications. Learn API authentication, request handling, batch processing, error management, and best practices for production.",
      ["Nano Banana API", "API integration", "Google Gemini API", "developer guide", "AI image processing", "batch processing", "production deployment", "error handling"],
      Some("/tutorials/api-integration.jpg"),
      "2024-12-05",
      "45 min read",
      Advanced)),
    ("style-transfer-techniques", TutorialMetadata(
      "style-transfer-techniques",
      "Style Transfer Techniques with Nano Banana - AI Art Transformation",
      "Master artistic style transfer using Nano Banana AI. Learn how to apply famous art styles, create consistent aesthetics, blend multiple styles, and transform photos into stunning artwork.",
      ["style transfer", "AI art transformation", "Nano Banana tutorial", "artistic filters", "style blending", "photo to art", "Google Gemini", "creative AI editing"],
      Some("/tutorials/style-transfer.jpg"),
      "2024-12-01",
      "35 min read",
      Intermediate)),
    ("advanced-techniques", TutorialMetadata(
      "advanced-techniques",
      "Advanced Nano Banana Techniques - Professional AI Editing Workflows",
      "Unlock the full potential of Nano Banana AI with expert-level techniques. Learn complex compositions, advanced prompt engineering, professional workflows, and industry secrets for stunning results.",
      ["advanced techniques", "Nano Banana AI", "professional workflows", "expert editing", "complex compositions", "advanced prompting", "AI mastery", "professional image editing"],
      Some("/tutorials/advanced-techniques.jpg"),
      "2024-11-28",
      "50 min read",
      Advanced)),
    ("prompt-engineering", TutorialMetadata(
      "prompt-engineering",
      "Prompt Engineering for Nano Banana - Master AI Image Prompts",
      "Learn the art and science of crafting effective AI prompts. Discover prompt structures, keyword optimization, negative prompting, iterative refinement, and professional techniques for consistent results.",
      ["prompt engineering", "AI prompts", "Nano Banana tutorial", "prompt optimization", "keyword strategies", "negative prompting", "prompt structures", "AI communication"],
      Some("/tutorials/prompt-engineering.jpg"),
      "2024-11-25",
      "40 min read",
      Intermediate))
  ]

  /** The property names of a literal, in order. */
  function Keys(entries: seq<(string, TutorialMetadata)>): (keys: seq<string>)
    ensures |keys| == |entries|
    ensures forall i :: 0 <= i < |entries| ==> keys[i] == entries[i].0
  {
    seq(|entries|, i requires 0 <= i < |entries| => entries[i].0)
  }

  /** The property values of a literal, in order. */
  function Values(entries: seq<(string, TutorialMetadata)>): (values: seq<TutorialMetadata>)
    ensures |values| == |entries|
    ensures forall i :: 0 <= i < |entries| ==> values[i] == entries[i].1
  {
    seq(|entries|, i requires 0 <= i < |entries| => entries[i].1)
  }

  /** Whether no property name repeats. */
  predicate DistinctKeys(entries: seq<(string, TutorialMetadata)>)
  {
    forall i, j :: 0 <= i < j < |entries| ==> entries[i].0 != entries[j].0
  }

  /** The object a literal evaluates to: each property in turn is assigned,
      so a later duplicate would overwrite an earlier one. */
  function Own(entries: seq<(string, TutorialMetadata)>): (own: map<string, TutorialMetadata>)
    ensures forall key :: key in own <==> key in Keys(entries)
    ensures forall key :: key in own ==> exists i :: 0 <= i < |entries| && entries[i] == (key, own[key])
    decreases |entries|
  {
    if entries == [] then map[]
    else
      var init, last := entries[..|entries| - 1], entries[|entries| - 1];
      assert Keys(entries) == Keys(init) + [last.0];
      assert forall i :: 0 <= i < |init| ==> entries[i] == init[i];
      Own(init)[last.0 := last.1]
  }

  /** With distinct names, the object holds exactly the listed properties,
      each with its listed value. */
  lemma {:induction false} OwnHoldsEntries(entries: seq<(string, TutorialMetadata)>)
    requires DistinctKeys(entries)
    ensures forall key :: key in Own(entries) <==> key in Keys(entries)
    ensures forall i :: 0 <= i < |entries| ==> Own(entries)[entries[i].0] == entries[i].1
    decreases |entries|
  {
    if entries != [] {
      var init := entries[..|entries| - 1];
      var last := entries[|entries| - 1];
      assert DistinctKeys(init);
      OwnHoldsEntries(init);
      forall i | 0 <= i < |entries|
        ensures Own(entries)[entries[i].0] == entries[i].1
      {
        if i < |entries| - 1 {
          assert entries[i].0 != last.0;
          assert init[i] == entries[i];
        }
      }
    }
  }

  /** Every property name is its record's `slug`, and no name repeats. */
  lemma TableWellFormed()
    ensures |TutorialsMetadata| == 9
    ensures forall i :: 0 <= i < |TutorialsMetadata| ==> TutorialsMetadata[i].0 == TutorialsMetadata[i].1.slug
    ensures DistinctKeys(TutorialsMetadata)
  {
  }

  /** `getTutorialMetadata(slug)` as written: `tutorialsMetadata[slug]`,
      which also answers for the names every object inherits. */
  function GetTutorialMetadataAsWritten(slug: string): (r: Js.Lookup<TutorialMetadata>)
    ensures r.Own? <==> slug in Keys(TutorialsMetadata)
    ensures r.Own? ==> r.value.slug == slug
    ensures r.Inherited? <==> slug !in Keys(TutorialsMetadata) && slug in Js.InheritedKeys
  {
    TableWellFormed();
    OwnHoldsEntries(TutorialsMetadata);
    var r := Js.Index(Own(TutorialsMetadata), slug);
    assert r.Own? ==> exists i :: 0 <= i < |TutorialsMetadata| && TutorialsMetadata[i].0 == slug;
    r
  }

  /** A slug such as `"constructor"` is no tutorial, yet the lookup as
      written does not return `undefined` for it. */
  lemma MetadataAsWrittenAnswersInherited()
    ensures GetTutorialMetadataAsWritten("constructor") == Js.Inherited("constructor")
    ensures GetTutorialMetadataAsWritten("toString") == Js.Inherited("toString")
  {
    TableWellFormed();
    assert "constructor" !in Keys(TutorialsMetadata);
    assert "toString" !in Keys(TutorialsMetadata);
  }

  /** `getTutorialMetadata(slug)`: the record for a listed slug, otherwise
      nothing. */
  function GetTutorialMetadata(slug: string): (r: Option<TutorialMetadata>)
    ensures r.Some? <==> slug in Keys(TutorialsMetadata)
    ensures r.Some? ==> r.value.slug == slug
    ensures forall i :: 0 <= i < |TutorialsMetadata| && TutorialsMetadata[i].0 == slug ==>
      r == Some(TutorialsMetadata[i].1)
  {
    TableWellFormed();
    OwnHoldsEntries(TutorialsMetadata);
    var own := Own(TutorialsMetadata);
    if slug in own then
      assert exists i :: 0 <= i < |TutorialsMetadata| && TutorialsMetadata[i].0 == slug;
      Some(own[slug])
    else None
  }

  /** Outside the inherited names, the lookup as written and the corrected
      one agree. */
  lemma MetadataLookupsAgree(slug: string)
    requires slug !in Js.InheritedKeys
    ensures GetTutorialMetadataAsWritten(slug) ==
      (if GetTutorialMetadata(slug).Some? then Js.Own(GetTutorialMetadata(slug).value) else Js.Undefined)
  {
    TableWellFormed();
    OwnHoldsEntries(TutorialsMetadata);
  }

  /** `getAllTutorialSlugs()`: `Object.keys(tutorialsMetadata)`. */
  function GetAllTutorialSlugs(): (slugs: seq<string>)
    ensures |slugs| == 9
    ensures forall s :: s in slugs <==> GetTutorialMetadata(s).Some?
    ensures forall i, j :: 0 <= i < j < |slugs| ==> slugs[i] != slugs[j]
  {
    TableWellFormed();
    Keys(TutorialsMetadata)
  }

  /** The slugs the sitemap falls back on are the catalogue's, in order. */
  lemma FallbackSlugsAreCatalogue()
    ensures Sitemap.FallbackTutorialSlugs == GetAllTutorialSlugs()
  {
    var slugs := GetAllTutorialSlugs();
    TableWellFormed();
    assert slugs == Keys(TutorialsMetadata);
  }

  // ----- filtering by difficulty -----

  /** `records.filter(t => t.difficulty === d)`. */
  function FilterByDifficulty(records: seq<TutorialMetadata>, d: Difficulty): (r: seq<TutorialMetadata>)
    ensures |r| <= |records|
    ensures forall i :: 0 <= i < |r| ==> r[i].difficulty == d
    decreases |records|
  {
    if records == [] then []
    else (if records[0].difficulty == d then [records[0]] else []) + FilterByDifficulty(records[1..], d)
  }

  /** `getTutorialsByDifficulty(d)`. */
  function GetTutorialsByDifficulty(d: Difficulty): (r: seq<TutorialMetadata>)
    ensures forall i :: 0 <= i < |r| ==> r[i].difficulty == d
  {
    FilterByDifficulty(Values(TutorialsMetadata), d)
  }

  /** The filter keeps every record of the difficulty as often as it occurs
      and drops every other one. */
  lemma {:induction false} FilterCounts(records: seq<TutorialMetadata>, d: Difficulty)
    ensures forall x ::
      multiset(FilterByDifficulty(records, d))[x] == if x.difficulty == d then multiset(records)[x] else 0
    decreases |records|
  {
    if records != [] {
      FilterCounts(records[1..], d);
      assert records == [records[0]] + records[1..];
    }
  }

  /** The filter keeps the records in table order. */
  lemma {:induction false} FilterKeepsOrder(records: seq<TutorialMetadata>, d: Difficulty)
    ensures Js.IsSubsequence(FilterByDifficulty(records, d), records)
    decreases |records|
  {
    if records != [] {
      FilterKeepsOrder(records[1..], d);
      var rest := FilterByDifficulty(records[1..], d);
      if records[0].difficulty == d {
        assert FilterByDifficulty(records, d) == [records[0]] + rest;
        assert ([records[0]] + rest)[1..] == rest;
      } else {
        assert FilterByDifficulty(records, d) == rest;
      }
    }
  }

  /** The three difficulty filters split the catalogue between them. */
  lemma DifficultiesPartition(records: seq<TutorialMetadata>)
    ensures multiset(FilterByDifficulty(records, Beginner)) +
            multiset(FilterByDifficulty(records, Intermediate)) +
            multiset(FilterByDifficulty(records, Advanced)) == multiset(records)
  {
    FilterCounts(records, Beginner);
    FilterCounts(records, Intermediate);
    FilterCounts(records, Advanced);
    var all := multiset(FilterByDifficulty(records, Beginner)) +
               multiset(FilterByDifficulty(records, Intermediate)) +
               multiset(FilterByDifficulty(records, Advanced));
    forall x
      ensures all[x] == multiset(records)[x]
    {
      match x.difficulty
      case Beginner =>
      case Intermediate =>
      case Advanced =>
    }
  }
}
