/** Line numbers of offsets in a source text (scripts/architecture-recon-index.ts:451-468). */
module LineOffsets {
  /** Line feeds before an offset. */
  function LineFeeds(content: string, offset: nat): nat
    requires offset <= |content|
  {
    if offset == 0 then 0 else LineFeeds(content, offset - 1) + if content[offset - 1] == '\n' then 1 else 0
  }

  /** offsets holds, in order, where the lines start among the first n characters. */
  ghost predicate StartsOf(offsets: seq<nat>, content: string, n: nat)
    requires n <= |content|
  {
    && |offsets| == LineFeeds(content, n) + 1
    && offsets[0] == 0
    && (forall i, j :: 0 <= i < j < |offsets| ==> offsets[i] < offsets[j])
    && (forall i :: 0 <= i < |offsets| ==> offsets[i] <= n && LineFeeds(content, offsets[i]) == i)
    && (forall i :: 1 <= i < |offsets| ==> content[offsets[i] - 1] == '\n')
  }

  method FindLineOffsets(content: string) returns (offsets: seq<nat>)
    ensures StartsOf(offsets, content, |content|)
  {
    offsets := [0];
    for index := 0 to |content|
      invariant StartsOf(offsets, content, index)
    {
      if content[index] == '\n' {
        offsets := offsets + [index + 1];
      }
    }
  }

  lemma {:induction false} LineFeedsGrow(content: string, a: nat, b: nat)
    requires a <= b <= |content|
    ensures LineFeeds(content, a) <= LineFeeds(content, b)
    decreases b
  {
    if a < b {
      LineFeedsGrow(content, a, b - 1);
    }
  }

  /** An offset lies on the line after as many line feeds as stand before it. */
  lemma StartBefore(offsets: seq<nat>, content: string, offset: nat, i: nat)
    requires StartsOf(offsets, content, |content|) && offset <= |content| && i < |offsets|
    ensures offsets[i] <= offset <==> i <= LineFeeds(content, offset)
  {
    if offsets[i] <= offset {
      LineFeedsGrow(content, offsets[i], offset);
    } else {
      LineFeedsGrow(content, offset, offsets[i] - 1);
    }
  }

  /** The bisection finds the 1-based line of an offset, whatever the text. */
  method LineForOffset(offsets: seq<nat>, offset: nat, ghost content: string) returns (line: nat)
    requires StartsOf(offsets, content, |content|) && offset <= |content|
    ensures line == LineFeeds(content, offset) + 1
  {
    var low, high := 0, |offsets|;
    while low < high
      invariant 0 <= low <= high <= |offsets|
      invariant low <= LineFeeds(content, offset) + 1
      invariant high < |offsets| ==> LineFeeds(content, offset) < high
    {
      var middle := (low + high) / 2;
      StartBefore(offsets, content, offset, middle);
      if offsets[middle] <= offset {
        low := middle + 1;
      } else {
        high := middle;
      }
    }
    LineFeedsGrow(content, offset, |content|);
    line := if low > 1 then low else 1;
  }
}
