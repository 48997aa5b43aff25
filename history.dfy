/**
 * The "role: content" transcript that the detection, extraction and strategy
 * services build in a loop before calling their language-model collaborator.
 */
module History {
  import opened Wrappers
  import opened Schemas

  /** One transcript line; a missing role reads as "user" and a missing content as "". */
  function Line(item: HistoryItem): string {
    item.role.GetOr("user") + ": " + item.content.GetOr("") + "\n"
  }

  function Render(items: seq<HistoryItem>): string
    decreases |items|
  {
    if items == [] then "" else Render(items[..|items| - 1]) + Line(items[|items| - 1])
  }

  /** The loop `text += f"{role}: {content}\n"` over the items. */
  method BuildTranscript(items: seq<HistoryItem>) returns (text: string)
    ensures text == Render(items)
  {
    text := "";
    for i := 0 to |items|
      invariant text == Render(items[..i])
    {
      assert items[..i + 1][..i] == items[..i];
      text := text + Line(items[i]);
    }
    assert items[..|items|] == items;
  }

  /** Rendering distributes over concatenation: each item contributes its own line. */
  lemma {:induction false} RenderAppend(a: seq<HistoryItem>, b: seq<HistoryItem>)
    ensures Render(a + b) == Render(a) + Render(b)
    decreases |b|
  {
    if b != [] {
      var init := b[..|b| - 1];
      assert (a + b)[..|a + b| - 1] == a + init;
      RenderAppend(a, init);
    } else {
      assert a + b == a;
    }
  }

  /** Python's `items[-n:]`: the last `n` items, or all of them when there are fewer; `items[-0:]` is every item. */
  function LastN(items: seq<HistoryItem>, n: nat): (r: seq<HistoryItem>)
    ensures |r| == if n == 0 || |items| < n then |items| else n
    ensures r == items[|items| - |r|..]
  {
    if n == 0 || |items| <= n then items else items[|items| - n..]
  }

  /** Items older than the last `n` do not reach the transcript of `LastN(items, n)`. */
  lemma LastNIgnoresOlder(older: seq<HistoryItem>, recent: seq<HistoryItem>, n: nat)
    requires n >= 1 && |recent| == n
    ensures LastN(older + recent, n) == recent
  {
  }
}
