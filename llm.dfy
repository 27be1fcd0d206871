/**
 * Text clean-up in the LLM client: base-URL normalisation, removal of
 * `<think>…</think>` reasoning blocks, and removal of markdown code fences
 * around a JSON reply.
 */
module Llm {
  import opened Text

  const ChatCompletions: string := "/chat/completions"
  const ThinkOpen: string := "<think>"
  const ThinkClose: string := "</think>"
  const Fence: string := "```"

  /** Strip trailing "/" characters, then one trailing "/chat/completions". */
  function NormalizeBaseURL(raw: string): string
  {
    TrimSuffix(TrimRightSet(raw, {'/'}), ChatCompletions)
  }

  /**
   * The result is a prefix of the input. What was removed is at most one
   * "/chat/completions" followed only by slashes, and that suffix is removed
   * exactly when it is there once the slashes are gone. The empty URL stays
   * empty.
   */
  lemma NormalizeBaseURLSpec(raw: string)
    ensures var t := TrimRightSet(raw, {'/'});
            var r := NormalizeBaseURL(raw);
            && HasPrefix(raw, r)
            && (t == r + ChatCompletions <==> HasSuffix(t, ChatCompletions))
            && (!HasSuffix(t, ChatCompletions) ==> t == r)
            && (t == [] || t[|t| - 1] != '/')
            && (forall i :: |t| <= i < |raw| ==> raw[i] == '/')
    ensures NormalizeBaseURL("") == ""
  {
    TrimRightSetTail(raw, {'/'});
    var t := TrimRightSet(raw, {'/'});
    var r := NormalizeBaseURL(raw);
    if HasSuffix(t, ChatCompletions) {
      assert t == t[..|t| - |ChatCompletions|] + t[|t| - |ChatCompletions|..];
    }
    assert raw[..|r|] == t[..|r|];
  }

  /** Everything TrimRightSet removes is in the set. */
  lemma {:induction false} TrimRightSetTail(s: string, set_: set<char>)
    ensures forall i :: |TrimRightSet(s, set_)| <= i < |s| ==> s[i] in set_
  {
    if s != [] && s[|s| - 1] in set_ {
      TrimRightSetTail(s[..|s| - 1], set_);
    }
  }

  /** `s` without the block that opens at `start` and whose closing tag starts `end` later. */
  function CutBlock(s: string, start: nat, end: nat): (r: string)
    requires start + end + |ThinkClose| <= |s|
    ensures |r| == |s| - end - |ThinkClose|
  {
    s[..start] + s[start + end + |ThinkClose|..]
  }

  /** The text left once every think block is removed, as the stripping loop computes it. */
  function NoThink(s: string): string
    decreases |s|
  {
    var start := Index(s, ThinkOpen);
    if start == -1 then s
    else
      var end := Index(s[start..], ThinkClose);
      if end == -1 then s[..start]
      else NoThink(CutBlock(s, start, end))
  }

  /** Text before the first match of `sub` holds no match of it. */
  lemma BeforeFirstMatch(s: string, sub: string)
    requires |sub| > 0 && Index(s, sub) >= 0
    ensures !Contains(s[..Index(s, sub)], sub)
  {
    var start := Index(s, sub);
    var t := s[..start];
    assert s[0..start] == t;
    IndexSpec(s, sub);
    IndexSpec(t, sub);
    var j := Index(t, sub);
    if j >= 0 {
      MatchInSlice(s, 0, start, sub, j);
    }
  }

  /** No think block survives, closed or not. */
  lemma {:induction false} NoThinkClean(s: string)
    ensures !Contains(NoThink(s), ThinkOpen)
    decreases |s|
  {
    var start := Index(s, ThinkOpen);
    if start >= 0 {
      var end := Index(s[start..], ThinkClose);
      if end == -1 {
        BeforeFirstMatch(s, ThinkOpen);
      } else {
        NoThinkClean(CutBlock(s, start, end));
      }
    }
  }

  /** Text without an opening tag is left as it is. */
  lemma NoThinkIdentity(s: string)
    requires !Contains(s, ThinkOpen)
    ensures NoThink(s) == s
  {
  }

  /** An unclosed block is cut from its tag to the end. */
  lemma NoThinkUnclosed(s: string)
    requires Index(s, ThinkOpen) >= 0
    requires Index(s[Index(s, ThinkOpen)..], ThinkClose) == -1
    ensures NoThink(s) == s[..Index(s, ThinkOpen)]
  {
  }

  /**
   * Removes every `<think>…</think>` block and an unclosed trailing one,
   * then trims; the loop follows NoThink step by step.
   */
  method StripThinkBlocks(s0: string) returns (r: string)
    ensures r == TrimSpace(NoThink(s0))
    ensures !Contains(r, ThinkOpen)
  {
    var s := s0;
    while true
      invariant NoThink(s) == NoThink(s0)
      decreases |s|
    {
      var start := Index(s, ThinkOpen);
      if start == -1 {
        break;
      }
      var end := Index(s[start..], ThinkClose);
      if end == -1 {
        NoThinkUnclosed(s);
        s := s[..start];
        break;
      }
      s := CutBlock(s, start, end);
    }
    NoThinkClean(s0);
    TrimSpaceNoMatch(NoThink(s0), ThinkOpen);
    r := TrimSpace(s);
  }

  /** The body of a fenced reply: drop the opening fence line and everything from the last fence. */
  function Unfence(s: string): string
  {
    var idx := Index(s, "\n");
    var body := if idx != -1 then s[idx + 1..] else s;
    var i := LastIndex(body, Fence);
    if i != -1 then body[..i] else body
  }

  function StripFences(raw: string): string
  {
    var s := TrimSpace(NoThink(TrimSpace(raw)));
    TrimSpace(if HasPrefix(s, Fence) then Unfence(s) else s)
  }

  /** The result of StripFences is trimmed and holds no think block. */
  lemma StripFencesClean(raw: string)
    ensures var r := StripFences(raw);
            && (r == [] || (!IsSpace(r[0]) && !IsSpace(r[|r| - 1])))
            && !Contains(r, ThinkOpen)
  {
    var s := TrimSpace(NoThink(TrimSpace(raw)));
    NoThinkClean(TrimSpace(raw));
    TrimSpaceNoMatch(NoThink(TrimSpace(raw)), ThinkOpen);
    var u := if HasPrefix(s, Fence) then Unfence(s) else s;
    if HasPrefix(s, Fence) {
      var idx := Index(s, "\n");
      var a := if idx != -1 then idx + 1 else 0;
      var body := s[a..];
      assert body == s[a..|s|];
      NoMatchInSlice(s, a, |s|, ThinkOpen);
      var i := LastIndex(body, Fence);
      var b := if i != -1 then i else |body|;
      assert body[..b] == body[0..b];
      NoMatchInSlice(body, 0, b, ThinkOpen);
      assert u == body[..b];
    }
    TrimSpaceShape(u);
    TrimSpaceNoMatch(u, ThinkOpen);
  }

  /** Un-fenced text is only think-stripped and trimmed. */
  lemma StripFencesUnfenced(raw: string)
    requires !HasPrefix(TrimSpace(NoThink(TrimSpace(raw))), Fence)
    ensures StripFences(raw) == TrimSpace(TrimSpace(NoThink(TrimSpace(raw))))
  {
  }
}
