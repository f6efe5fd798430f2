/** The reveal run's timing: the stagger between blocks, the delay between
    characters, and the a-priori estimate after which the page is marked
    ready. Times are milliseconds after the run started. */
module Timeline {
  import opened Content

  const StaggerMs: nat := 400
  const CharDelayMs: nat := 12
  const SettleMs: nat := 200

  /** When block `i` starts typing. */
  function StartOffset(i: nat): nat {
    StaggerMs * i
  }

  /** When block `i`'s typing loop runs its step `k`: step `k <= |content|`
      writes the prefix of length `k`, step `|content| + 1` ends the loop. */
  function StepOffset(i: nat, k: nat): nat {
    StartOffset(i) + CharDelayMs * k
  }

  /** `blocks.reduce((s, b) => s + b.content.length, 0)`. */
  function TotalChars(blocks: seq<Block>): nat {
    if blocks == [] then 0 else |blocks[0].content| + TotalChars(blocks[1..])
  }

  /** `totalChars * 12 + blocks.length * 400 + 200`. */
  function EstTotalTime(blocks: seq<Block>): nat {
    CharDelayMs * TotalChars(blocks) + StaggerMs * |blocks| + SettleMs
  }

  /** The character count of the whole page bounds that of each block. */
  lemma {:induction false} ContentWithinTotal(blocks: seq<Block>, i: nat)
    requires i < |blocks|
    ensures |blocks[i].content| <= TotalChars(blocks)
  {
    if i > 0 {
      ContentWithinTotal(blocks[1..], i - 1);
    }
  }

  /** The character count of the whole page is zero exactly when every block's
      content is empty. */
  lemma {:induction false} TotalCharsZeroIffAllEmpty(blocks: seq<Block>)
    ensures TotalChars(blocks) == 0 <==> forall i :: 0 <= i < |blocks| ==> blocks[i].content == []
  {
    if blocks != [] {
      TotalCharsZeroIffAllEmpty(blocks[1..]);
      assert forall i :: 1 <= i < |blocks| ==> blocks[i] == blocks[1..][i - 1];
    }
  }

  /** With exact delays the finish timer fires strictly after the last step
      of every block's typing loop (the one that ends it), and so after its
      last write. */
  lemma FinishAfterTyping(blocks: seq<Block>, i: nat)
    requires i < |blocks|
    ensures StepOffset(i, |blocks[i].content|) < StepOffset(i, |blocks[i].content| + 1) < EstTotalTime(blocks)
  {
    ContentWithinTotal(blocks, i);
  }
}
