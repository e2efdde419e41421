/**
 * The preview variant of the prompt card. It keeps its own `isCopied` flag
 * instead of using the hook: no empty-text guard, no `isCopying` flag, and a
 * failed write leaves `isCopied` as it was. Its tag helpers are those of
 * `PromptCard`.
 */
module PromptCardPreview {
  import opened Wrappers
  import opened CopyToClipboard
  import PromptCard
  import PromptData

  const CopiedToast: Toast := Toast("Copied!", "Prompt copied to clipboard.", DefaultVariant, None, false)
  const FailedToast: Toast := Toast("Failed to copy", "Please try again.", Destructive, None, false)

  /** The steps of one `handleCopy`, in order. */
  function PreviewCopyEffects(prompt: string, outcome: WriteOutcome): (steps: seq<Effect>)
    ensures CopiedSet(true) in steps <==> outcome.WriteSucceeded?
    ensures ToastShown(FailedToast) in steps <==> outcome.WriteFailed?
    ensures CopiedSet(false) !in steps
    ensures forall i :: 0 <= i < |steps| ==> !steps[i].CopyingSet?
  {
    match outcome
    case WriteSucceeded =>
      [ClipboardWrite(prompt), CopiedSet(true), ToastShown(CopiedToast), ResetScheduled(ResetDelayMs)]
    case WriteFailed =>
      [ClipboardWrite(prompt), ToastShown(FailedToast)]
  }

  /** Every call, blank text included, first attempts the write, and shows
      exactly one toast. */
  lemma {:induction false} PreviewAlwaysWrites(prompt: string, outcome: WriteOutcome)
    ensures PreviewCopyEffects(prompt, outcome)[0] == ClipboardWrite(prompt)
    ensures ToastCount(PreviewCopyEffects(prompt, outcome)) == 1
  {
    var e := PreviewCopyEffects(prompt, outcome);
    if outcome.WriteSucceeded? {
      assert e[4..] == [];
      assert ToastCount(e[3..]) == 0;
      assert ToastCount(e[2..]) == 1;
      assert ToastCount(e[1..]) == 1;
    } else {
      assert e[2..] == [];
      assert ToastCount(e[1..]) == 1;
    }
  }

  /** Where the preview and the hook part ways: on blank text the hook
      performs no write, the preview does. */
  lemma BlankTextDiffers(prompt: string, outcome: WriteOutcome)
    requires IsBlank(prompt)
    ensures ClipboardWrite(prompt) !in CopyEffects(prompt, None, outcome)
    ensures ClipboardWrite(prompt) in PreviewCopyEffects(prompt, outcome)
  {
  }

  /** The tag badges of the preview are computed exactly as on the card. */
  function PreviewBadges(tags: seq<string>): (badges: seq<(string, string)>)
    ensures |badges| == |PromptCard.DisplayTags(tags)| && |badges| <= PromptCard.MaxShownTags
    ensures forall i :: 0 <= i < |badges| ==>
      badges[i] == (PromptCard.TagLabel(tags[i]), PromptCard.TagColor(tags[i]))
  {
    var shown := PromptCard.DisplayTags(tags);
    seq(|shown|, i requires 0 <= i < |shown| => (PromptCard.TagLabel(shown[i]), PromptCard.TagColor(shown[i])))
  }

  /** One rendered preview card. */
  class PromptCardPreviewView {
    const slug: string
    const prompt: string
    var isCopied: bool
    var pendingResets: nat
    var effects: seq<Effect>

    constructor (slug: string, prompt: string)
      ensures this.slug == slug && this.prompt == prompt
      ensures !isCopied && pendingResets == 0 && effects == []
    {
      this.slug := slug;
      this.prompt := prompt;
      isCopied, pendingResets, effects := false, 0, [];
    }

    /** `handleCopy`, the write answering with `outcome`. */
    method HandleCopy(outcome: WriteOutcome)
      modifies this
      ensures effects == old(effects) + PreviewCopyEffects(prompt, outcome)
      ensures isCopied == (outcome.WriteSucceeded? || old(isCopied))
      ensures pendingResets == old(pendingResets) + (if outcome.WriteSucceeded? then 1 else 0)
    {
      effects := effects + [ClipboardWrite(prompt)];
      match outcome {
        case WriteSucceeded =>
          isCopied := true;
          effects := effects + [CopiedSet(true), ToastShown(CopiedToast)];
          effects := effects + [ResetScheduled(ResetDelayMs)];
          pendingResets := pendingResets + 1;
        case WriteFailed =>
          effects := effects + [ToastShown(FailedToast)];
      }
    }

    /** The reset timer fires. */
    method ResetTimerFired()
      requires pendingResets > 0
      modifies this
      ensures !isCopied
      ensures pendingResets == old(pendingResets) - 1
      ensures effects == old(effects) + [CopiedSet(false)]
    {
      isCopied := false;
      pendingResets := pendingResets - 1;
      effects := effects + [CopiedSet(false)];
    }

    /** `handleViewDetails`: the route it pushes is the card link's target,
        the detail page of this card's slug. */
    method HandleViewDetails() returns (route: string)
      ensures route == PromptCard.CardHref(slug)
      ensures PromptData.SlugOfPromptPath(route) == Some(slug)
    {
      route := "/prompts/" + slug;
    }
  }
}
