/**
 * The gallery card of one prompt: which tags it shows, their colours and
 * labels, and the copy button, which hands the prompt text to the
 * copy-to-clipboard hook.
 */
module PromptCard {
  import opened Wrappers
  import Js
  import opened CopyToClipboard
  import PromptData

  /** At most this many tags are shown as badges. */
  const MaxShownTags: nat := 3

  /** `tags.slice(0, 3)`. */
  function DisplayTags(tags: seq<string>): (shown: seq<string>)
    ensures |shown| == if |tags| < MaxShownTags then |tags| else MaxShownTags
    ensures shown == tags[..|shown|]
  {
    if |tags| < MaxShownTags then tags else tags[..MaxShownTags]
  }

  /** `Math.max(0, tags.length - 3)`: the number of tags left out of the
      badges. */
  function RemainingTagsCount(tags: seq<string>): (n: nat)
    ensures |DisplayTags(tags)| + n == |tags|
    ensures n == 0 <==> DisplayTags(tags) == tags
  {
    if |tags| > MaxShownTags then |tags| - MaxShownTags else 0
  }

  /** Whether the "+N" badge is rendered. */
  predicate ShowsMoreBadge(tags: seq<string>)
    ensures ShowsMoreBadge(tags) <==> |tags| > MaxShownTags
  {
    RemainingTagsCount(tags) > 0
  }

  /** The shown tags and the "+N" count account for every tag, and the badge
      appears exactly when some tag is hidden. */
  lemma TagsAccounted(tags: seq<string>)
    ensures |DisplayTags(tags)| + RemainingTagsCount(tags) == |tags|
    ensures ShowsMoreBadge(tags) <==> |tags| > MaxShownTags
    ensures ShowsMoreBadge(tags) <==> DisplayTags(tags) != tags
  {
  }

  /** The colour table of `getTagColor`. */
  const TagColors: map<string, string> := map[
    "creative" := "#9333ea",
    "design" := "#3b82f6",
    "photography" := "#10b981",
    "ecommerce" := "#f59e0b",
    "character" := "#ef4444",
    "logo" := "#8b5cf6"]

  const DefaultTagColor: string := "#6b7280"

  /** What `tagColors[tag] || '#6b7280'` evaluates to. */
  datatype ColorValue = HexColor(hex: string) | PrototypeMember(name: string)

  /** `getTagColor` as written: the object literal also answers for the
      members every object inherits, which are truthy and win over the
      default. */
  function TagColorAsWritten(tag: string): (v: ColorValue)
    ensures tag in TagColors ==> v == HexColor(TagColors[tag])
    ensures tag !in TagColors && tag !in Js.InheritedKeys ==> v == HexColor(DefaultTagColor)
    ensures tag !in TagColors && tag in Js.InheritedKeys ==> v.PrototypeMember?
  {
    match Js.Index(TagColors, tag)
    case Own(hex) => if hex != "" then HexColor(hex) else HexColor(DefaultTagColor)
    case Inherited(name) => PrototypeMember(name)
    case Undefined => HexColor(DefaultTagColor)
  }

  /** A tag named like an `Object.prototype` member gets no colour at all. */
  lemma TagColorAsWrittenMisses()
    ensures TagColorAsWritten("constructor") == PrototypeMember("constructor")
    ensures TagColorAsWritten("toString").PrototypeMember?
  {
  }

  /** `getTagColor` as intended: the listed colour for the six known tags and
      the grey default for every other tag. */
  function TagColor(tag: string): (hex: string)
    ensures tag in TagColors ==> hex == TagColors[tag]
    ensures tag !in TagColors ==> hex == DefaultTagColor
    ensures |hex| == 7 && hex[0] == '#'
  {
    if tag in TagColors then TagColors[tag] else DefaultTagColor
  }

  /** The intended colour agrees with the code as written on every tag that
      is not an `Object.prototype` member name. */
  lemma TagColorAgrees(tag: string)
    requires tag !in Js.InheritedKeys
    ensures TagColorAsWritten(tag) == HexColor(TagColor(tag))
  {
  }

  /** `getTagLabel`: the first character upper-cased, every later '-'
      turned into a space. */
  function TagLabel(tag: string): (shownText: string)
    ensures |shownText| == |tag|
    ensures |tag| > 0 ==> shownText[0] == Js.UpperChar(tag[0])
    ensures forall i :: 0 < i < |tag| ==> shownText[i] == (if tag[i] == '-' then ' ' else tag[i])
  {
    if tag == "" then "" else [Js.UpperChar(tag[0])] + Js.ReplaceAll(tag[1..], '-', ' ')
  }

  /** The card link's target, `/prompts/${slug}`. */
  function CardHref(slug: string): (href: string)
    ensures PromptData.SlugOfPromptPath(href) == Some(slug)
  {
    PromptData.PromptPath(slug)
  }

  /** One rendered card: its props and the hook instance it owns. */
  class PromptCardView {
    const slug: string
    const prompt: string
    const tags: seq<string>
    const copier: ClipboardCopier

    constructor (slug: string, prompt: string, tags: seq<string>)
      ensures this.slug == slug && this.prompt == prompt && this.tags == tags
      ensures fresh(copier) && copier.Valid()
      ensures !copier.isCopied && !copier.isCopying && copier.effects == [] && copier.pendingResets == 0
    {
      this.slug := slug;
      this.prompt := prompt;
      this.tags := tags;
      copier := new ClipboardCopier();
    }

    /** `handleCopyPrompt`: the card's prompt text, unmodified and with the
        default options, goes to `copyToClipboard`. */
    method HandleCopyPrompt(outcome: WriteOutcome)
      requires copier.Valid()
      modifies copier
      ensures copier.Valid()
      ensures copier.effects == old(copier.effects) + CopyEffects(prompt, None, outcome)
      ensures IsBlank(prompt) ==> copier.isCopied == old(copier.isCopied)
      ensures !IsBlank(prompt) ==> copier.isCopied == outcome.WriteSucceeded? && !copier.isCopying
      ensures copier.pendingResets ==
        old(copier.pendingResets) + (if !IsBlank(prompt) && outcome.WriteSucceeded? then 1 else 0)
    {
      copier.CopyText(prompt, None, outcome);
    }
  }
}
