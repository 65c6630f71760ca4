/**
 * The pure string logic of the scheduler: `strip_reply_tags`, which keeps only what the agent
 * wrapped in `<reply>…</reply>`, and `resolve_delivery_target`, which picks the conversation and
 * channel a task's result is queued for.
 */
module Routing {
  import opened Wrappers
  import opened Text
  import opened Rows
  import opened Models
  import opened Db

  // ---------------------------------------------------------------------------
  // strip_reply_tags
  // ---------------------------------------------------------------------------

  const OPEN_TAG := "<reply>"
  const CLOSE_TAG := "</reply>"

  /**
   * The contents of the `open(.*?)close` matches of `s` found scanning from `from`, in order: a
   * match starts at the first `open` that a `close` follows and ends at the first `close` after
   * it (the pattern is non-greedy and `.` matches newlines); the scan resumes after the match.
   */
  function Blocks(s: string, open: string, close: string, from: nat): seq<string>
    requires close != [] && from <= |s|
    decreases |s| - from
  {
    match IndexOf(s, open, from)
    case None => []
    case Some(i) =>
      match IndexOf(s, close, i + |open|)
      case None => []
      case Some(j) => [s[i + |open|..j]] + Blocks(s, open, close, j + |close|)
  }

  /** `_REPLY_TAG_RE.findall(text)`. */
  function ReplyBlocks(text: string): seq<string> {
    Blocks(text, OPEN_TAG, CLOSE_TAG, 0)
  }

  /** `[m.strip() for m in blocks]`. */
  function StripAll(blocks: seq<string>): (r: seq<string>)
    ensures |r| == |blocks| && forall k :: 0 <= k < |r| ==> r[k] == Strip(blocks[k])
  {
    seq(|blocks|, k requires 0 <= k < |blocks| => Strip(blocks[k]))
  }

  /**
   * The text with only its reply blocks kept: the stripped, non-empty block contents joined by
   * newlines, or the text itself when it has no block at all.
   */
  function StripReplyTags(text: string): string {
    var blocks := ReplyBlocks(text);
    if blocks == [] then text
    else Join("\n", Filter(StripAll(blocks), (b: string) => b != ""))
  }

  /** A slice of `s` that contains `pat` puts it into `s` at the shifted index. */
  lemma OccursInSlice(s: string, a: nat, b: nat, pat: string, k: nat)
    requires a <= b <= |s| && OccursAt(s[a..b], pat, k)
    ensures OccursAt(s, pat, a + k)
  {
    var w := s[a..b];
    assert forall m :: 0 <= m < |pat| ==> s[a + k + m] == w[k + m] == pat[m];
    assert s[a + k..a + k + |pat|] == pat;
  }

  /** The text between `a` and the first `close` from `a` holds no `close`. */
  lemma FirstSliceLacks(s: string, close: string, a: nat)
    requires close != [] && IndexOf(s, close, a).Some?
    ensures !Contains(s[a..IndexOf(s, close, a).value], close)
  {
    IndexOfSpec(s, close, a);
    SliceBeforeFirstLacks(s, close, a, IndexOf(s, close, a).value);
  }

  /** A slice of `s` that ends before the first `close` from its start holds no `close`. */
  lemma SliceBeforeFirstLacks(s: string, close: string, a: nat, j: nat)
    requires close != [] && a <= j <= |s| && forall k :: a <= k < j ==> !OccursAt(s, close, k)
    ensures !Contains(s[a..j], close)
  {
    forall k | 0 <= k <= j - a && OccursAt(s[a..j], close, k) ensures false {
      OccursInSlice(s, a, j, close, k);
    }
  }

  /** None of `bs` contains `close`. */
  ghost predicate NoneContain(bs: seq<string>, close: string) {
    forall n :: 0 <= n < |bs| ==> !Contains(bs[n], close)
  }

  lemma NoneContainCons(b: string, rest: seq<string>, close: string)
    requires !Contains(b, close) && NoneContain(rest, close)
    ensures NoneContain([b] + rest, close)
  {
    var bs := [b] + rest;
    forall n | 0 <= n < |bs| ensures !Contains(bs[n], close) {
      if n > 0 { assert bs[n] == rest[n - 1]; }
    }
  }

  /** No block contains the closing pattern: each one ends at the first `close` after its start. */
  lemma {:induction false} BlocksLackClose(s: string, open: string, close: string, from: nat, bs: seq<string>)
    requires close != [] && from <= |s| && bs == Blocks(s, open, close, from)
    ensures NoneContain(bs, close)
    decreases |s| - from
  {
    match IndexOf(s, open, from)
    case None =>
    case Some(i) =>
      match IndexOf(s, close, i + |open|)
      case None =>
      case Some(j) =>
        FirstSliceLacks(s, close, i + |open|);
        var rest := Blocks(s, open, close, j + |close|);
        BlocksLackClose(s, open, close, j + |close|, rest);
        BlocksAt(s, open, close, from, i, j);
        NoneContainCons(s[i + |open|..j], rest, close);
  }

  /** No reply block ever contains `</reply>`. */
  lemma ReplyBlocksLackCloseTag(text: string)
    ensures var bs := ReplyBlocks(text); forall n :: 0 <= n < |bs| ==> !Contains(bs[n], CLOSE_TAG)
  {
    BlocksLackClose(text, OPEN_TAG, CLOSE_TAG, 0, ReplyBlocks(text));
    assert ReplyBlocks(text) == Blocks(text, OPEN_TAG, CLOSE_TAG, 0);
  }

  /** There are no blocks exactly when no `open` is followed, after its end, by a `close`. */
  lemma NoBlocksIff(s: string, open: string, close: string)
    requires close != []
    ensures Blocks(s, open, close, 0) == [] <==>
      !exists i, j :: OccursAt(s, open, i) && i + |open| <= j && OccursAt(s, close, j)
  {
    IndexOfSpec(s, open, 0);
    match IndexOf(s, open, 0)
    case None =>
    case Some(i) =>
      IndexOfSpec(s, close, i + |open|);
      match IndexOf(s, close, i + |open|)
      case None =>
        forall i', j | OccursAt(s, open, i') && i' + |open| <= j
          ensures !OccursAt(s, close, j)
        {
          assert i <= i';
        }
      case Some(j) =>
  }

  /**
   * A text without a `<reply>` that a `</reply>` follows has no blocks, and only such a text;
   * it comes back unchanged.
   */
  lemma NoBlocksUnchanged(text: string)
    ensures ReplyBlocks(text) == [] <==>
      !exists i, j :: OccursAt(text, OPEN_TAG, i) && i + |OPEN_TAG| <= j && OccursAt(text, CLOSE_TAG, j)
    ensures ReplyBlocks(text) == [] ==> StripReplyTags(text) == text
  {
    NoBlocksIff(text, OPEN_TAG, CLOSE_TAG);
  }

  /** `close` cannot start inside itself: no later character of it equals its first. */
  predicate Unbordered(close: string) {
    close != [] && forall d :: 0 < d < |close| ==> close[d] != close[0]
  }

  /** After `open + body`, with no `close` inside the body, the first `close` is the one that follows. */
  lemma FirstClose(open: string, body: string, close: string, rest: string)
    requires Unbordered(close) && !Contains(body, close)
    ensures IndexOf(open + body + close + rest, close, |open|) == Some(|open| + |body|)
  {
    var s := open + body + close + rest;
    var n := |open| + |body|;
    assert s[n..n + |close|] == close;
    forall k | |open| <= k < n ensures !OccursAt(s, close, k) {
      if k + |close| <= n {
        assert s[k..k + |close|] == body[k - |open|..k - |open| + |close|];
        assert !OccursAt(body, close, k - |open|);
      } else if k + |close| <= |s| {
        assert s[n] == close[0];
        assert s[k..k + |close|][n - k] == close[0];
      }
    }
    var r := IndexOf(s, close, |open|);
    IndexOfSpec(s, close, |open|);
    assert OccursAt(s, close, n);
    assert r.Some?;
    assert r.value <= n;
  }

  /** One match of the scan: the definition of `Blocks` where it finds a block. */
  lemma BlocksAt(s: string, open: string, close: string, from: nat, i: nat, j: nat)
    requires close != [] && from <= |s|
    requires IndexOf(s, open, from) == Some(i) && IndexOf(s, close, i + |open|) == Some(j)
    requires i + |open| <= j && j + |close| <= |s|
    ensures Blocks(s, open, close, from) == [s[i + |open|..j]] + Blocks(s, open, close, j + |close|)
  {
  }

  /** `s = open + body + close + …` with the facts that make its first block `body`. */
  lemma FirstBlock(s: string, open: string, close: string, body: string, n: nat)
    requires close != [] && |open| <= n && n + |close| <= |s|
    requires IndexOf(s, open, 0) == Some(0) && IndexOf(s, close, |open|) == Some(n)
    requires s[|open|..n] == body
    ensures Blocks(s, open, close, 0) == [body] + Blocks(s, open, close, n + |close|)
  {
    BlocksAt(s, open, close, 0, 0, n);
  }

  /** `open + body + close + rest` finds `open` at its start, followed by `body`. */
  lemma OpensWith(open: string, body: string, close: string, rest: string)
    ensures IndexOf(open + body + close + rest, open, 0) == Some(0)
    ensures (open + body + close + rest)[|open|..|open| + |body|] == body
  {
    var s := open + body + close + rest;
    assert s[..|open|] == open;
    IndexOfHere(s, open, 0);
    assert s[|open|..|open| + |body|] == body;
  }

  /**
   * A text that opens with a complete block yields that block first; the scan then resumes right
   * after the block's `close`.
   */
  lemma LeadingBlockOf(open: string, body: string, close: string, rest: string)
    requires Unbordered(close) && !Contains(body, close)
    ensures Blocks(open + body + close + rest, open, close, 0)
         == [body] + Blocks(open + body + close + rest, open, close, |open| + |body| + |close|)
  {
    OpensWith(open, body, close, rest);
    FirstClose(open, body, close, rest);
    FirstBlock(open + body + close + rest, open, close, body, |open| + |body|);
  }

  lemma CloseTagUnbordered()
    ensures Unbordered(CLOSE_TAG)
  {
  }

  /**
   * A text that opens with a complete reply block yields that block first, and the following
   * blocks are those found after its `</reply>`: blocks come out in the order they appear.
   */
  lemma LeadingBlock(body: string, rest: string)
    requires !Contains(body, CLOSE_TAG)
    ensures ReplyBlocks(OPEN_TAG + body + CLOSE_TAG + rest)
         == [body] + Blocks(OPEN_TAG + body + CLOSE_TAG + rest, OPEN_TAG, CLOSE_TAG, |OPEN_TAG| + |body| + |CLOSE_TAG|)
  {
    CloseTagUnbordered();
    LeadingBlockOf(OPEN_TAG, body, CLOSE_TAG, rest);
  }

  /** A reply wrapped in one block comes back stripped of its tags and surrounding whitespace. */
  lemma SingleBlock(body: string)
    requires !Contains(body, CLOSE_TAG)
    ensures StripReplyTags(OPEN_TAG + body + CLOSE_TAG) == Strip(body)
  {
    LeadingBlock(body, "");
    assert OPEN_TAG + body + CLOSE_TAG + "" == OPEN_TAG + body + CLOSE_TAG;
    assert Blocks(OPEN_TAG + body + CLOSE_TAG, OPEN_TAG, CLOSE_TAG, |OPEN_TAG| + |body| + |CLOSE_TAG|) == [];
    var kept := Filter(StripAll([body]), (b: string) => b != "");
    if Strip(body) == "" {
      assert kept == [];
    } else {
      assert kept == [Strip(body)];
    }
  }

  // ---------------------------------------------------------------------------
  // resolve_delivery_target
  // ---------------------------------------------------------------------------

  /** Where a task's result is queued: a conversation and the channel that delivers it. */
  datatype Target = Target(conversation: string, channelPrefix: string)

  /** `task.target_conversation or task.conversation`. */
  function Candidate(task: ScheduledTask): string {
    if task.targetConversation.Some? && task.targetConversation.value != "" then task.targetConversation.value
    else task.conversation
  }

  /** `conversation.split("-", 1)[1]`, or `""` without a dash. */
  function AfterFirstDash(conversation: string): (r: string)
    ensures '-' !in conversation ==> r == ""
    ensures '-' in conversation ==> conversation == ParseChannelPrefix(conversation) + "-" + r
  {
    match FindChar(conversation, '-')
    case None => ""
    case Some(i) => conversation[i + 1..]
  }

  /**
   * The delivery target of a task. A candidate with a known channel prefix is used as it is, and
   * so is one whose origin has no known prefix either. Otherwise the candidate is a bare
   * identifier: it is routed to the origin conversation when it is the origin's tail after a dash,
   * and else gets the origin's prefix prepended.
   */
  function ResolveDeliveryTarget(task: ScheduledTask, knownPrefix: string -> bool): Target {
    var candidate := Candidate(task);
    if knownPrefix(candidate) || !knownPrefix(task.conversation) then
      Target(candidate, ParseChannelPrefix(candidate))
    else
      var originPrefix := ParseChannelPrefix(task.conversation);
      var originSuffix := AfterFirstDash(task.conversation);
      if originSuffix == candidate || EndsWith(originSuffix, "-" + candidate) then
        Target(task.conversation, originPrefix)
      else
        Target(originPrefix + "-" + candidate, originPrefix)
  }

  /** Every target's channel is the channel its own conversation name parses to. */
  lemma TargetChannelMatchesConversation(task: ScheduledTask, knownPrefix: string -> bool)
    ensures var t := ResolveDeliveryTarget(task, knownPrefix);
      t.channelPrefix == ParseChannelPrefix(t.conversation)
  {
    var origin := ParseChannelPrefix(task.conversation);
    assert '-' !in DEFAULT_CHANNEL;
    ChannelOfPrefixedName(origin, Candidate(task));
  }

  /** A candidate with a known prefix, or any candidate of an origin without one, is used as is. */
  lemma KnownTargetKept(task: ScheduledTask, knownPrefix: string -> bool)
    requires knownPrefix(Candidate(task)) || !knownPrefix(task.conversation)
    ensures ResolveDeliveryTarget(task, knownPrefix).conversation == Candidate(task)
    ensures task.targetConversation.None? ==> ResolveDeliveryTarget(task, knownPrefix).conversation == task.conversation
  {
  }

  /** What a suffix of `s` ends with, `s` ends with. */
  lemma EndsWithFromSuffix(s: string, k: nat, x: string)
    requires k <= |s| && EndsWith(s[k..], x)
    ensures EndsWith(s, x)
  {
    assert s[|s| - |x|..] == s[k..][|s| - k - |x|..];
  }

  /** An ending of `s` that starts at or after `k` is an ending of `s[k..]`. */
  lemma EndsWithInSuffix(s: string, k: nat, x: string)
    requires k + |x| <= |s| && EndsWith(s, x)
    ensures EndsWith(s[k..], x)
  {
    assert s[k..][|s| - k - |x|..] == s[|s| - |x|..];
  }

  /** Right after a dash at `i`, `s` continues with `t` to its end exactly when it ends with `-t` there. */
  lemma DashThenTail(s: string, i: nat, t: string)
    requires i < |s| && s[i] == '-'
    ensures s[i + 1..] == t <==> (EndsWith(s, "-" + t) && i == |s| - |t| - 1)
  {
    var dt := "-" + t;
    if s[i + 1..] == t {
      assert s[i..] == dt;
    }
    if EndsWith(s, dt) && i == |s| - |t| - 1 {
      assert s[i + 1..] == s[i..][1..] == dt[1..] == t;
    }
  }

  /** A name without a dash does not end with a dash and a tail. */
  lemma NoDashNoDashEnding(s: string, t: string)
    requires '-' !in s
    ensures !EndsWith(s, "-" + t)
  {
    var dt := "-" + t;
    if |dt| <= |s| {
      assert s[|s| - |dt|..][0] == s[|s| - |dt|];
      assert s[|s| - |dt|] in s;
    }
  }

  /** `s` ends with `-t` after its first dash exactly when `s` itself ends with `-t`. */
  lemma DashTail(s: string, t: string)
    requires t != []
    ensures var suffix := AfterFirstDash(s);
      (suffix == t || EndsWith(suffix, "-" + t)) <==> EndsWith(s, "-" + t)
  {
    var dt := "-" + t;
    match FindChar(s, '-')
    case None =>
      NoDashNoDashEnding(s, t);
    case Some(i) =>
      var suffix := s[i + 1..];
      assert AfterFirstDash(s) == suffix;
      DashThenTail(s, i, t);
      if EndsWith(suffix, dt) {
        EndsWithFromSuffix(s, i + 1, dt);
      }
      if EndsWith(s, dt) {
        var st := |s| - |dt|;
        assert s[st] == s[st..][0] == '-';
        if st > i {
          EndsWithInSuffix(s, i + 1, dt);
        }
      }
  }

  /** A bare candidate of an origin with a known prefix is delivered on the origin's channel. */
  lemma BareTargetInheritsChannel(task: ScheduledTask, knownPrefix: string -> bool)
    requires knownPrefix(task.conversation) && !knownPrefix(Candidate(task))
    ensures ResolveDeliveryTarget(task, knownPrefix).channelPrefix == ParseChannelPrefix(task.conversation)
  {
  }

  /**
   * A bare candidate of an origin with a known prefix is routed to the origin itself exactly when
   * the origin ends with a dash followed by the candidate, and otherwise to the candidate with the
   * origin's prefix and a dash in front.
   */
  lemma BareTargetDashBoundary(task: ScheduledTask, knownPrefix: string -> bool)
    requires knownPrefix(task.conversation) && !knownPrefix(Candidate(task))
    ensures var t := ResolveDeliveryTarget(task, knownPrefix);
      && (t.conversation == task.conversation <==> EndsWith(task.conversation, "-" + Candidate(task)))
      && (!EndsWith(task.conversation, "-" + Candidate(task)) ==>
            t.conversation == ParseChannelPrefix(task.conversation) + "-" + Candidate(task))
  {
    var candidate := Candidate(task);
    var origin := ParseChannelPrefix(task.conversation);
    var dt := "-" + candidate;
    assert candidate != [] by {
      assert candidate != task.conversation;
    }
    DashTail(task.conversation, candidate);
    var rebuilt := origin + dt;
    assert rebuilt[|rebuilt| - |dt|..] == dt;
    var t := ResolveDeliveryTarget(task, knownPrefix);
    assert t.conversation == (if EndsWith(task.conversation, dt) then task.conversation else rebuilt);
  }
}
