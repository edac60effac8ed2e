/** The usage totals of a project's messages (the `useMemo` in usage.tsx). */
module Usage {
  import opened Wrappers

  /** The token counts of one message; a missing count is `None`. */
  datatype MessageUsage = MessageUsage(inputTokens: Option<int>, outputTokens: Option<int>)

  datatype Totals = Totals(totalMessages: nat, totalInputTokens: int, totalOutputTokens: int)

  /** `m.inputTokens || 0` and `m.outputTokens || 0`. */
  function InputOf(m: MessageUsage): int {
    m.inputTokens.GetOr(0)
  }

  function OutputOf(m: MessageUsage): int {
    m.outputTokens.GetOr(0)
  }

  /** `messages.reduce((acc, m) => acc + (m.inputTokens || 0), 0)`. */
  function SumInput(ms: seq<MessageUsage>): int {
    if ms == [] then 0 else SumInput(ms[..|ms| - 1]) + InputOf(ms[|ms| - 1])
  }

  function SumOutput(ms: seq<MessageUsage>): int {
    if ms == [] then 0 else SumOutput(ms[..|ms| - 1]) + OutputOf(ms[|ms| - 1])
  }

  /** The three totals the panel shows. */
  function UsageTotals(ms: seq<MessageUsage>): (t: Totals)
    ensures t.totalMessages == |ms|
    ensures ms == [] ==> t == Totals(0, 0, 0)
    ensures |ms| == 1 ==> t == Totals(1, InputOf(ms[0]), OutputOf(ms[0]))
    ensures (forall i :: 0 <= i < |ms| ==> ms[i].inputTokens.None?) ==> t.totalInputTokens == 0
    ensures (forall i :: 0 <= i < |ms| ==> ms[i].outputTokens.None?) ==> t.totalOutputTokens == 0
  {
    NoCounts(ms);
    Totals(|ms|, SumInput(ms), SumOutput(ms))
  }

  lemma {:induction false} NoCounts(ms: seq<MessageUsage>)
    ensures (forall i :: 0 <= i < |ms| ==> ms[i].inputTokens.None?) ==> SumInput(ms) == 0
    ensures (forall i :: 0 <= i < |ms| ==> ms[i].outputTokens.None?) ==> SumOutput(ms) == 0
  {
    if ms != [] {
      NoCounts(ms[..|ms| - 1]);
    }
  }

  /** The totals of a concatenation are the sums of the parts' totals. */
  lemma {:induction false} TotalsAppend(a: seq<MessageUsage>, b: seq<MessageUsage>)
    ensures UsageTotals(a + b) == Totals(UsageTotals(a).totalMessages + UsageTotals(b).totalMessages,
                                         UsageTotals(a).totalInputTokens + UsageTotals(b).totalInputTokens,
                                         UsageTotals(a).totalOutputTokens + UsageTotals(b).totalOutputTokens)
    decreases |b|
  {
    if b == [] {
      assert a + b == a;
    } else {
      var b' := b[..|b| - 1];
      TotalsAppend(a, b');
      assert (a + b)[..|a + b| - 1] == a + b';
    }
  }

  /** With no negative counts, no total is negative. */
  lemma {:induction false} TotalsNonNegative(ms: seq<MessageUsage>)
    requires forall i :: 0 <= i < |ms| ==> InputOf(ms[i]) >= 0 && OutputOf(ms[i]) >= 0
    ensures UsageTotals(ms).totalInputTokens >= 0 && UsageTotals(ms).totalOutputTokens >= 0
  {
    if ms != [] {
      TotalsNonNegative(ms[..|ms| - 1]);
    }
  }
}
