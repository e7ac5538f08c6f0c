/** The crude size of a message, and where a conversation is cut to fit. */
module Estimate {
  import opened Domain

  const BYTES_PER_TOKEN := 4
  const MESSAGE_OVERHEAD_TOKENS := 4

  function EstimateText(text: string): nat {
    (|text| + BYTES_PER_TOKEN - 1) / BYTES_PER_TOKEN
  }

  function EstimateBlock(block: Block): nat {
    match block
    case Text(text) => EstimateText(text)
    case ToolUse(_, name, args) => EstimateText(name) + EstimateText(args)
    case ToolResult(_, tool, content, _) => EstimateText(tool) + EstimateText(content)
    case Image(_) => 0
  }

  function EstimateBlocks(blocks: seq<Block>): nat {
    if blocks == [] then 0 else EstimateBlocks(blocks[..|blocks| - 1]) + EstimateBlock(blocks[|blocks| - 1])
  }

  function EstimateMessage(message: Message): nat {
    MESSAGE_OVERHEAD_TOKENS + EstimateBlocks(message.content)
  }

  function EstimateAll(ms: seq<Bounded>): nat {
    if ms == [] then 0 else EstimateAll(ms[..|ms| - 1]) + EstimateMessage(ms[|ms| - 1].message)
  }

  lemma {:induction false} NothingToEstimate()
    ensures EstimateAll([]) == 0
  {
  }

  method EstimateMessages(ms: seq<Bounded>) returns (total: int)
    ensures total == EstimateAll(ms)
  {
    total := 0;
    for i := 0 to |ms|
      invariant total == EstimateAll(ms[..i])
    {
      assert ms[..i + 1][..i] == ms[..i];
      var size := MESSAGE_OVERHEAD_TOKENS;
      var blocks := ms[i].message.content;
      for j := 0 to |blocks|
        invariant size == MESSAGE_OVERHEAD_TOKENS + EstimateBlocks(blocks[..j])
      {
        assert blocks[..j + 1][..j] == blocks[..j];
        match blocks[j]
        case Text(text) => size := size + EstimateText(text);
        case ToolUse(_, name, args) => size := size + EstimateText(name) + EstimateText(args);
        case ToolResult(_, tool, content, _) => size := size + EstimateText(tool) + EstimateText(content);
        case Image(_) =>
      }
      assert blocks[..|blocks|] == blocks;
      total := total + size;
    }
    assert ms[..|ms|] == ms;
  }

  lemma {:induction false} EstimateConcat(a: seq<Bounded>, b: seq<Bounded>)
    ensures EstimateAll(a + b) == EstimateAll(a) + EstimateAll(b)
  {
    if b == [] {
      assert a + b == a;
    } else {
      assert (a + b)[..|a + b| - 1] == a + b[..|b| - 1];
      EstimateConcat(a, b[..|b| - 1]);
    }
  }

  // ---- what the estimate is worth --------------------------------------------------

  /** Every text that is sent for a block: the words, or a call's name and arguments, or a result's tool and content. */
  function TextsOf(block: Block): seq<string> {
    match block
    case Text(text) => [text]
    case ToolUse(_, name, args) => [name, args]
    case ToolResult(_, tool, content, _) => [tool, content]
    case Image(_) => []
  }

  function TextsIn(blocks: seq<Block>): seq<string> {
    if blocks == [] then [] else TextsIn(blocks[..|blocks| - 1]) + TextsOf(blocks[|blocks| - 1])
  }

  function AllTexts(ms: seq<Bounded>): seq<string> {
    if ms == [] then [] else AllTexts(ms[..|ms| - 1]) + TextsIn(ms[|ms| - 1].message.content)
  }

  function Bytes(texts: seq<string>): nat {
    if texts == [] then 0 else Bytes(texts[..|texts| - 1]) + |texts[|texts| - 1]|
  }

  lemma {:induction false} BytesConcat(a: seq<string>, b: seq<string>)
    ensures Bytes(a + b) == Bytes(a) + Bytes(b)
  {
    if b == [] {
      assert a + b == a;
    } else {
      assert (a + b)[..|a + b| - 1] == a + b[..|b| - 1];
      BytesConcat(a, b[..|b| - 1]);
    }
  }

  /** `tokens` for `texts` and `more` tokens: four bytes each, the last of a text perhaps not full. */
  ghost predicate Weighs(tokens: nat, texts: seq<string>, more: nat) {
    Bytes(texts) + 4 * more <= 4 * tokens <= Bytes(texts) + 4 * more + 3 * |texts|
  }

  lemma {:induction false} BlockWeighs(block: Block)
    ensures Weighs(EstimateBlock(block), TextsOf(block), 0)
  {
    var texts := TextsOf(block);
    if |texts| > 0 {
      assert texts[..0] == [] && texts[..1] == [texts[0]];
      assert Bytes([texts[0]]) == |texts[0]| by { assert [texts[0]][..0] == []; }
    }
  }

  lemma {:induction false} BlocksWeigh(blocks: seq<Block>)
    ensures Weighs(EstimateBlocks(blocks), TextsIn(blocks), 0)
  {
    hide EstimateBlock, TextsOf;
    if blocks != [] {
      BlocksWeigh(blocks[..|blocks| - 1]);
      BlockWeighs(blocks[|blocks| - 1]);
      BytesConcat(TextsIn(blocks[..|blocks| - 1]), TextsOf(blocks[|blocks| - 1]));
    }
  }

  /** A message is four tokens and a token for every four bytes of every text in it. */
  lemma {:induction false} SizeLaw(ms: seq<Bounded>)
    ensures var bytes := Bytes(AllTexts(ms)) + 16 * |ms|;
            bytes <= 4 * EstimateAll(ms) <= bytes + 3 * |AllTexts(ms)|
  {
    hide EstimateBlocks, TextsIn;
    if ms != [] {
      var init, last := ms[..|ms| - 1], ms[|ms| - 1].message.content;
      SizeLaw(init);
      BlocksWeigh(last);
      BytesConcat(AllTexts(init), TextsIn(last));
    }
  }

  // ---- the cut -----------------------------------------------------------------

  predicate IsTool(ms: seq<Bounded>, i: int)
    requires 0 <= i < |ms|
  {
    ms[i].message.role.Tool?
  }

  /** The verbatim tail beginning at `i` fits. The first message is never part of it
      unless it is the only one. */
  predicate TailFits(ms: seq<Bounded>, keep: int, i: nat)
    requires i <= |ms|
  {
    i == |ms| || (0 < i && EstimateAll(ms[i..]) <= keep)
  }

  /** The longest tail that fits, by where it begins. */
  function TailStart(ms: seq<Bounded>, keep: int, i: nat): (cut: nat)
    requires i <= |ms| && TailFits(ms, keep, i)
    ensures cut <= i && TailFits(ms, keep, cut)
    ensures cut > 1 ==> EstimateAll(ms[cut - 1..]) > keep
    ensures 0 < i ==> 0 < cut
  {
    if i <= 1 || EstimateAll(ms[i - 1..]) > keep then i else TailStart(ms, keep, i - 1)
  }

  function SkipTools(ms: seq<Bounded>, i: nat): (cut: nat)
    requires i <= |ms|
    ensures i <= cut <= |ms|
    ensures forall k :: i <= k < cut ==> IsTool(ms, k)
    ensures cut < |ms| ==> !IsTool(ms, cut)
    decreases |ms| - i
  {
    if i < |ms| && IsTool(ms, i) then SkipTools(ms, i + 1) else i
  }

  function BackOffTools(ms: seq<Bounded>, i: nat): (cut: nat)
    requires i < |ms|
    ensures cut <= i
    ensures cut > 0 ==> !IsTool(ms, cut)
    ensures forall k :: cut < k <= i ==> IsTool(ms, k)
  {
    if i > 0 && IsTool(ms, i) then BackOffTools(ms, i - 1) else i
  }

  /** Where the verbatim tail begins. */
  function Cut(ms: seq<Bounded>, keep: int): int {
    var cut := SkipTools(ms, TailStart(ms, keep, |ms|));
    if cut < |ms| then cut else if ms == [] then -1 else BackOffTools(ms, |ms| - 1)
  }

  lemma {:induction false} OneMoreInTheTail(ms: seq<Bounded>, i: nat)
    requires i < |ms|
    ensures EstimateAll(ms[i..]) == EstimateMessage(ms[i].message) + EstimateAll(ms[i + 1..])
  {
    assert ms[i..] == [ms[i]] + ms[i + 1..];
    assert [ms[i]][..0] == [];
    assert EstimateAll([ms[i]]) == EstimateMessage(ms[i].message);
    EstimateConcat([ms[i]], ms[i + 1..]);
  }

  method ChooseCut(ms: seq<Bounded>, keep: int) returns (cut: int)
    ensures cut == Cut(ms, keep)
  {
    hide EstimateMessage, EstimateBlocks, EstimateAll;
    cut := |ms|;
    NothingToEstimate();
    var size := 0;
    var i := |ms| - 1;
    assert ms[|ms|..] == [];
    while i > 0
      invariant -1 <= i < |ms| && (ms != [] ==> 0 <= i) && cut == i + 1
      invariant TailFits(ms, keep, cut)
      invariant size == EstimateAll(ms[cut..])
      invariant TailStart(ms, keep, |ms|) == TailStart(ms, keep, cut)
    {
      OneMoreInTheTail(ms, i);
      size := size + EstimateMessage(ms[i].message);
      if size > keep {
        break;
      }
      cut := i;
      i := i - 1;
    }
    assert cut == TailStart(ms, keep, |ms|);
    while cut < |ms| && IsTool(ms, cut)
      invariant 0 <= cut <= |ms|
      invariant SkipTools(ms, cut) == SkipTools(ms, TailStart(ms, keep, |ms|))
    {
      cut := cut + 1;
    }
    if cut >= |ms| {
      cut := |ms| - 1;
      while cut > 0 && IsTool(ms, cut)
        invariant ms == [] ==> cut == -1
        invariant ms != [] ==> 0 <= cut < |ms| && BackOffTools(ms, cut) == BackOffTools(ms, |ms| - 1)
      {
        cut := cut - 1;
      }
    }
  }

  /** Whether no turn but tool results fits, so that the last turn is kept whatever its size. */
  ghost predicate KeepsTheLastTurn(ms: seq<Bounded>, keep: int) {
    forall k :: 0 < k < |ms| && EstimateAll(ms[k..]) <= keep ==> IsTool(ms, k)
  }

  lemma {:induction false} TailsShrink(ms: seq<Bounded>, i: nat, j: nat)
    requires i <= j <= |ms|
    ensures EstimateAll(ms[j..]) <= EstimateAll(ms[i..])
  {
    assert ms[i..] == ms[i..j] + ms[j..];
    EstimateConcat(ms[i..j], ms[j..]);
  }

  /** The cut is inside the conversation and never leaves a tool result without its call in front of it. */
  lemma {:induction false} CutIsATurn(ms: seq<Bounded>, keep: int)
    requires ms != []
    ensures 0 <= Cut(ms, keep) < |ms|
    ensures Cut(ms, keep) > 0 ==> !IsTool(ms, Cut(ms, keep))
  {
  }

  /** Unless nothing fits, the kept tail fits, and a longer one that begins with a turn would not. */
  lemma {:induction false} CutFitsAndIsMaximal(ms: seq<Bounded>, keep: int)
    requires ms != [] && !KeepsTheLastTurn(ms, keep)
    ensures EstimateAll(ms[Cut(ms, keep)..]) <= keep && Cut(ms, keep) > 0
    ensures forall k :: 0 < k < Cut(ms, keep) ==> IsTool(ms, k) || EstimateAll(ms[k..]) > keep
  {
    var start := TailStart(ms, keep, |ms|);
    forall k | 0 < k < |ms| && EstimateAll(ms[k..]) <= keep ensures start <= k {
      if k < start {
        TailsShrink(ms, k, start - 1);
      }
    }
    var cut := SkipTools(ms, start);
    var k :| 0 < k < |ms| && EstimateAll(ms[k..]) <= keep && !IsTool(ms, k);
    assert cut <= k;
    TailsShrink(ms, start, cut);
  }

  /** When nothing fits, the last turn is kept with the results it answers. */
  lemma {:induction false} OtherwiseTheLastTurn(ms: seq<Bounded>, keep: int)
    requires ms != [] && KeepsTheLastTurn(ms, keep)
    ensures forall k :: Cut(ms, keep) < k < |ms| ==> IsTool(ms, k)
  {
    var start := TailStart(ms, keep, |ms|);
    var cut := SkipTools(ms, start);
    if cut < |ms| {
      TailsShrink(ms, start, cut);
      assert false;
    }
  }
}
