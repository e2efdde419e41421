/**
 * The copy-to-clipboard hook: two flags, `isCopied` and `isCopying`, driven
 * through an empty-text guard, a successful or failed clipboard write, and a
 * reset timer. The clipboard outcome is an argument and the timer's expiry an
 * explicit event; every observable step is appended to an effect log, so that
 * the order of the steps is part of the state.
 */
module CopyToClipboard {
  import opened Wrappers

  datatype ToastVariant = DefaultVariant | Destructive

  /** A toast notification; `duration` is `None` when the toast library's
      default applies, `proAction` when the Pro-version button is attached. */
  datatype Toast = Toast(
    title: string,
    description: string,
    variant: ToastVariant,
    duration: Option<nat>,
    proAction: bool)

  /** What the platform's `navigator.clipboard.writeText` does with a call. */
  datatype WriteOutcome = WriteSucceeded | WriteFailed

  /** One observable step of a copy. */
  datatype Effect =
    | CopyingSet(copying: bool)
    | CopiedSet(copied: bool)
    | ClipboardWrite(text: string)
    | ToastShown(toast: Toast)
    | ResetScheduled(delayMs: nat)

  // Toast configuration (config/toast-config.ts).
  const CopyPromptTitle: string := "✨ Pro 版推荐"
  const CopyPromptMessage: string := "想生成更好的效果？试试 Pro 版工具"
  const CopyPromptDuration: nat := 4000
  const CopyErrorTitle: string := "复制失败"
  const CopyErrorMessage: string := "请重试或手动复制"

  /** Delay after which the `isCopied` flag is reset. */
  const ResetDelayMs: nat := 2000

  const ErrorToast: Toast := Toast(CopyErrorTitle, CopyErrorMessage, Destructive, None, false)
  const PromoToast: Toast := Toast(CopyPromptTitle, CopyPromptMessage, DefaultVariant, Some(CopyPromptDuration), true)
  const PlainSuccessToast: Toast := Toast("复制成功！", "Prompt 已复制到剪贴板", DefaultVariant, Some(2000), false)

  /** The characters `String.prototype.trim` removes: ECMAScript WhiteSpace
      (including every Unicode space separator) and LineTerminator. */
  predicate IsTrimmable(c: char)
  {
    c as int in {0x09, 0x0A, 0x0B, 0x0C, 0x0D, 0x20, 0xA0, 0x1680,
                 0x2000, 0x2001, 0x2002, 0x2003, 0x2004, 0x2005, 0x2006,
                 0x2007, 0x2008, 0x2009, 0x200A, 0x2028, 0x2029, 0x202F,
                 0x205F, 0x3000, 0xFEFF}
  }

  /** `!text || text.trim().length === 0`, stated directly: every character
      is one `trim` removes (the empty string included). */
  predicate IsBlank(text: string)
  {
    forall i :: 0 <= i < |text| ==> IsTrimmable(text[i])
  }

  /** `s.trimStart()`: the leading trimmable characters dropped. */
  function TrimStart(s: string): (r: string)
    ensures |r| <= |s| && r == s[|s| - |r|..]
    ensures r == [] <==> IsBlank(s)
    ensures r != [] ==> !IsTrimmable(r[0])
    decreases |s|
  {
    if s == [] then s
    else if IsTrimmable(s[0]) then
      assert IsBlank(s) <==> IsBlank(s[1..]) by {
        assert forall i :: 0 < i < |s| ==> s[i] == s[1..][i - 1];
      }
      TrimStart(s[1..])
    else s
  }

  /** `s.trimEnd()`: the trailing trimmable characters dropped. */
  function TrimEnd(s: string): (r: string)
    ensures |r| <= |s| && r == s[..|r|]
    ensures r == [] <==> IsBlank(s)
    ensures r != [] ==> !IsTrimmable(r[|r| - 1])
    decreases |s|
  {
    if s == [] then s
    else if IsTrimmable(s[|s| - 1]) then
      assert IsBlank(s) <==> IsBlank(s[..|s| - 1]) by {
        assert forall i :: 0 <= i < |s| - 1 ==> s[i] == s[..|s| - 1][i];
      }
      TrimEnd(s[..|s| - 1])
    else s
  }

  /** `s.trim()`. */
  function Trim(s: string): string
  {
    TrimEnd(TrimStart(s))
  }

  /** The guard's `text.trim().length === 0` holds exactly for blank text;
      a non-blank text trims to a string that starts and ends with a
      character `trim` keeps. */
  lemma BlankIffTrimsToEmpty(text: string)
    ensures |Trim(text)| == 0 <==> IsBlank(text)
    ensures |Trim(text)| > 0 ==> !IsTrimmable(Trim(text)[0]) && !IsTrimmable(Trim(text)[|Trim(text)| - 1])
  {
    var t := TrimStart(text);
    if t != [] {
      assert !IsTrimmable(t[0]);
      assert !IsBlank(t);
    }
  }

  /** The success toast chosen by `options.showProPromotion`, which defaults
      to true. */
  function SuccessToast(showProPromotion: Option<bool>): (t: Toast)
    ensures showProPromotion.GetOr(true) ==> t.proAction && t.duration == Some(CopyPromptDuration)
    ensures !showProPromotion.GetOr(true) ==> !t.proAction && t.duration == Some(2000)
    ensures showProPromotion.GetOr(true) ==> t.title == CopyPromptTitle && t.description == CopyPromptMessage
    ensures t.variant == DefaultVariant && t != ErrorToast
  {
    if showProPromotion.GetOr(true) then PromoToast else PlainSuccessToast
  }

  /** The steps of one call of `copyToClipboard`, in order. */
  function CopyEffects(text: string, showProPromotion: Option<bool>, outcome: WriteOutcome): seq<Effect>
  {
    if IsBlank(text) then [ToastShown(ErrorToast)]
    else match outcome
      case WriteSucceeded =>
        [CopyingSet(true), ClipboardWrite(text), CopiedSet(true), CopyingSet(false),
         ToastShown(SuccessToast(showProPromotion)), ResetScheduled(ResetDelayMs)]
      case WriteFailed =>
        [CopyingSet(true), ClipboardWrite(text), CopyingSet(false), CopiedSet(false),
         ToastShown(ErrorToast)]
  }

  /** Which steps a call takes: the write, always of the text unchanged,
      happens exactly for non-blank text; the error toast exactly for blank
      text or a failed write; `isCopied` is raised exactly on a successful
      write. */
  lemma CopyStepsByOutcome(text: string, showProPromotion: Option<bool>, outcome: WriteOutcome)
    ensures ClipboardWrite(text) in CopyEffects(text, showProPromotion, outcome) <==> !IsBlank(text)
    ensures forall e :: e in CopyEffects(text, showProPromotion, outcome) && e.ClipboardWrite? ==> e.text == text
    ensures ToastShown(ErrorToast) in CopyEffects(text, showProPromotion, outcome) <==> IsBlank(text) || outcome.WriteFailed?
    ensures CopiedSet(true) in CopyEffects(text, showProPromotion, outcome) <==> !IsBlank(text) && outcome.WriteSucceeded?
  {
    var steps := CopyEffects(text, showProPromotion, outcome);
    if !IsBlank(text) && outcome.WriteSucceeded? {
      assert steps[1] == ClipboardWrite(text) && steps[2] == CopiedSet(true);
      assert SuccessToast(showProPromotion) != ErrorToast;
    } else if !IsBlank(text) {
      assert steps[1] == ClipboardWrite(text) && steps[4] == ToastShown(ErrorToast);
    } else {
      assert steps[0] == ToastShown(ErrorToast);
    }
  }

  /** The pair (isCopied, isCopying) after replaying `effects` from the given
      flags. */
  function Replay(copied: bool, copying: bool, effects: seq<Effect>): (bool, bool)
    decreases |effects|
  {
    if effects == [] then (copied, copying)
    else match effects[0]
      case CopyingSet(b) => Replay(copied, b, effects[1..])
      case CopiedSet(b) => Replay(b, copying, effects[1..])
      case _ => Replay(copied, copying, effects[1..])
  }

  function ToastCount(effects: seq<Effect>): nat
    decreases |effects|
  {
    if effects == [] then 0 else (if effects[0].ToastShown? then 1 else 0) + ToastCount(effects[1..])
  }

  function ResetCount(effects: seq<Effect>): nat
    decreases |effects|
  {
    if effects == [] then 0 else (if effects[0].ResetScheduled? then 1 else 0) + ResetCount(effects[1..])
  }

  /** Every call shows exactly one toast. */
  lemma {:induction false} ExactlyOneToast(text: string, showProPromotion: Option<bool>, outcome: WriteOutcome)
    ensures ToastCount(CopyEffects(text, showProPromotion, outcome)) == 1
  {
    var e := CopyEffects(text, showProPromotion, outcome);
    if IsBlank(text) {
      assert e[1..] == [];
    } else if outcome.WriteSucceeded? {
      assert e[6..] == [];
      assert ToastCount(e[5..]) == 0;
      assert ToastCount(e[4..]) == 1;
      assert ToastCount(e[3..]) == 1;
      assert ToastCount(e[2..]) == 1;
      assert ToastCount(e[1..]) == 1;
    } else {
      assert e[5..] == [];
      assert ToastCount(e[4..]) == 1;
      assert ToastCount(e[3..]) == 1;
      assert ToastCount(e[2..]) == 1;
      assert ToastCount(e[1..]) == 1;
    }
  }

  /** Blank text: an error toast and nothing else; no write, no flag change. */
  lemma BlankTextRejected(text: string, showProPromotion: Option<bool>, outcome: WriteOutcome, copied: bool, copying: bool)
    requires IsBlank(text)
    ensures CopyEffects(text, showProPromotion, outcome) == [ToastShown(ErrorToast)]
    ensures Replay(copied, copying, CopyEffects(text, showProPromotion, outcome)) == (copied, copying)
    ensures forall i :: 0 <= i < |CopyEffects(text, showProPromotion, outcome)| ==>
      !CopyEffects(text, showProPromotion, outcome)[i].ClipboardWrite?
  {
  }

  /** Non-blank text: `isCopying` is raised before the write is attempted,
      and the write carries the text unchanged. */
  lemma CopyingRaisedBeforeWrite(text: string, showProPromotion: Option<bool>, outcome: WriteOutcome)
    requires !IsBlank(text)
    ensures CopyEffects(text, showProPromotion, outcome)[..2] == [CopyingSet(true), ClipboardWrite(text)]
  {
  }

  /** Non-blank text ends with `isCopying` false and `isCopied` telling
      whether the write succeeded, whatever the flags were before; only a
      success schedules a reset, and only a failure shows a destructive toast. */
  lemma {:induction false} OutcomeFlags(text: string, showProPromotion: Option<bool>, outcome: WriteOutcome, copied: bool, copying: bool)
    requires !IsBlank(text)
    ensures Replay(copied, copying, CopyEffects(text, showProPromotion, outcome)) == (outcome.WriteSucceeded?, false)
    ensures ResetCount(CopyEffects(text, showProPromotion, outcome)) == (if outcome.WriteSucceeded? then 1 else 0)
  {
    var e := CopyEffects(text, showProPromotion, outcome);
    if outcome.WriteSucceeded? {
      assert e[6..] == [];
      assert Replay(true, false, e[5..]) == (true, false) && ResetCount(e[5..]) == 1;
      assert Replay(true, false, e[4..]) == (true, false) && ResetCount(e[4..]) == 1;
      assert Replay(true, true, e[3..]) == (true, false) && ResetCount(e[3..]) == 1;
      assert Replay(copied, true, e[2..]) == (true, false) && ResetCount(e[2..]) == 1;
      assert Replay(copied, true, e[1..]) == (true, false) && ResetCount(e[1..]) == 1;
    } else {
      assert e[5..] == [];
      assert Replay(false, false, e[4..]) == (false, false) && ResetCount(e[4..]) == 0;
      assert Replay(copied, false, e[3..]) == (false, false) && ResetCount(e[3..]) == 0;
      assert Replay(copied, true, e[2..]) == (false, false) && ResetCount(e[2..]) == 0;
      assert Replay(copied, true, e[1..]) == (false, false) && ResetCount(e[1..]) == 0;
    }
  }

  /** The state of one `useCopyToClipboard` instance. */
  class ClipboardCopier {
    var isCopied: bool
    var isCopying: bool
    /** Reset timers scheduled and not yet fired. */
    var pendingResets: nat
    /** Every observable step so far, oldest first. */
    var effects: seq<Effect>

    /** Replaying the log from the initial flags gives the current flags. */
    ghost predicate Valid()
      reads this
    {
      Replay(false, false, effects) == (isCopied, isCopying)
    }

    constructor ()
      ensures Valid()
      ensures !isCopied && !isCopying && pendingResets == 0 && effects == []
    {
      isCopied, isCopying, pendingResets, effects := false, false, 0, [];
    }

    /** `copyToClipboard(text, { showProPromotion })`, the write answering
        with `outcome`. */
    method CopyText(text: string, showProPromotion: Option<bool>, outcome: WriteOutcome)
      requires Valid()
      modifies this
      ensures Valid()
      ensures effects == old(effects) + CopyEffects(text, showProPromotion, outcome)
      ensures IsBlank(text) ==> isCopied == old(isCopied) && isCopying == old(isCopying)
      ensures !IsBlank(text) ==> isCopied == outcome.WriteSucceeded? && !isCopying
      ensures pendingResets == old(pendingResets) + (if !IsBlank(text) && outcome.WriteSucceeded? then 1 else 0)
    {
      var steps := CopyEffects(text, showProPromotion, outcome);
      ReplayAppend(false, false, effects, steps);
      if IsBlank(text) {
        BlankTextRejected(text, showProPromotion, outcome, isCopied, isCopying);
        effects := effects + [ToastShown(ErrorToast)];
        return;
      }
      OutcomeFlags(text, showProPromotion, outcome, isCopied, isCopying);
      isCopying := true;
      effects := effects + [CopyingSet(true)];
      effects := effects + [ClipboardWrite(text)];
      match outcome {
        case WriteSucceeded =>
          isCopied := true;
          isCopying := false;
          effects := effects + [CopiedSet(true), CopyingSet(false)];
          effects := effects + [ToastShown(SuccessToast(showProPromotion))];
          effects := effects + [ResetScheduled(ResetDelayMs)];
          pendingResets := pendingResets + 1;
          assert effects == old(effects) + steps;
        case WriteFailed =>
          isCopying := false;
          isCopied := false;
          effects := effects + [CopyingSet(false), CopiedSet(false)];
          effects := effects + [ToastShown(ErrorToast)];
          assert effects == old(effects) + steps;
      }
    }

    /** A scheduled reset timer fires: `isCopied` goes back to false. */
    method ResetTimerFired()
      requires Valid()
      requires pendingResets > 0
      modifies this
      ensures Valid()
      ensures !isCopied && isCopying == old(isCopying)
      ensures pendingResets == old(pendingResets) - 1
      ensures effects == old(effects) + [CopiedSet(false)]
    {
      ReplayAppend(false, false, effects, [CopiedSet(false)]);
      assert Replay(isCopied, isCopying, [CopiedSet(false)]) == Replay(false, isCopying, []);
      isCopied := false;
      pendingResets := pendingResets - 1;
      effects := effects + [CopiedSet(false)];
    }
  }

  /** Replaying a log in two parts is replaying it at once. */
  lemma {:induction false} ReplayAppend(copied: bool, copying: bool, a: seq<Effect>, b: seq<Effect>)
    ensures Replay(copied, copying, a + b) ==
      var mid := Replay(copied, copying, a); Replay(mid.0, mid.1, b)
    decreases |a|
  {
    if a != [] {
      assert (a + b)[1..] == a[1..] + b;
      match a[0]
      case CopyingSet(x) => ReplayAppend(copied, x, a[1..], b);
      case CopiedSet(x) => ReplayAppend(x, copying, a[1..], b);
      case _ => ReplayAppend(copied, copying, a[1..], b);
    } else {
      assert a + b == b;
    }
  }
}
