// The analysis progress panel of src/components/AnalysisProgressIndicator.tsx:
// when it shows, its heading, its status line and its progress bar.

module AnalysisProgressIndicator {
  import opened Wrappers
  import opened Numeric
  import opened Strings
  import SetlistList

  /** The share of the batch done, in percent; 0 before a batch has a size. */
  function Percentage(current: nat, total: nat): (r: real)
    ensures total > 0 ==> r * total as real == current as real * 100.0
    ensures total == 0 ==> r == 0.0
    ensures current <= total ==> 0.0 <= r <= 100.0
  {
    if total > 0 then
      var p := (current as real / total as real) * 100.0;
      assert p * total as real == current as real * 100.0;
      p
    else 0.0
  }

  /** The batch is complete: every song of a non-empty batch is done. */
  predicate IsComplete(current: nat, total: nat)
  {
    current == total && total > 0
  }

  /** A batch is complete exactly when it has a size and stands at 100 percent. */
  lemma CompleteIsFull(current: nat, total: nat)
    ensures IsComplete(current, total) <==> total > 0 && Percentage(current, total) == 100.0
  {
    if total > 0 && Percentage(current, total) == 100.0 {
      assert 100.0 * total as real == current as real * 100.0;
    }
  }

  /** The bar under the heading: the percentage, its rounded value and the current/total counts. */
  datatype Bar = Bar(value: real, rounded: int, current: nat, total: nat)

  /** What the panel shows. */
  datatype Panel = Panel(spinner: bool, heading: string, status: string, bar: Option<Bar>, individualNote: bool)

  /** The status line: the batch counts, or the number of songs being analysed one by one. */
  function Status(current: nat, total: nat, analyzing: nat): (r: string)
  {
    if total > 0 then NatToString(current) + " of " + NatToString(total) + " songs"
    else SetlistList.Counted(analyzing, "song") + " processing"
  }

  /** The component: nothing when idle, otherwise the panel. */
  function Render(isProcessing: bool, current: nat, total: nat, analyzingSongs: set<string>): (r: Option<Panel>)
    ensures r.None? <==> !isProcessing && total == 0 && |analyzingSongs| == 0
  {
    if !isProcessing && total == 0 && |analyzingSongs| == 0 then None
    else
      var percentage := Percentage(current, total);
      Some(Panel(isProcessing,
                 if IsComplete(current, total) then "Analysis Complete" else "Analyzing Audio",
                 Status(current, total, |analyzingSongs|),
                 if total > 0 then Some(Bar(percentage, Round(percentage), current, total)) else None,
                 |analyzingSongs| > 0 && total == 0))
  }

  /**
   * A shown panel says "Analysis Complete" exactly for a complete batch,
   * has a bar exactly when the batch has a size, labelled with a whole
   * percentage in 0..100 when the counts are in range, and notes individual
   * analysis exactly when songs are analysed outside a batch.
   */
  lemma RenderShows(isProcessing: bool, current: nat, total: nat, analyzingSongs: set<string>)
    requires Render(isProcessing, current, total, analyzingSongs).Some?
    ensures var p := Render(isProcessing, current, total, analyzingSongs).value;
            p.spinner == isProcessing &&
            (p.heading == "Analysis Complete" <==> IsComplete(current, total)) &&
            (p.bar.Some? <==> total > 0) &&
            (p.bar.Some? ==> p.bar.value.value == Percentage(current, total) &&
                             (current <= total ==> 0 <= p.bar.value.rounded <= 100)) &&
            (p.individualNote <==> |analyzingSongs| > 0 && total == 0)
  {
  }

  /** Outside a batch the status counts the songs in analysis, singular only for one. */
  lemma StatusOutsideBatch(current: nat, analyzing: nat)
    ensures analyzing == 1 <==> Status(current, 0, analyzing) == NatToString(analyzing) + " song processing"
    ensures analyzing != 1 <==> Status(current, 0, analyzing) == NatToString(analyzing) + " songs processing"
  {
    SetlistList.CountedSingularOnlyForOne(analyzing, "song");
    var c := SetlistList.Counted(analyzing, "song");
    assert Status(current, 0, analyzing) == c + " processing";
    var prefix := NatToString(analyzing) + " song";
    assert (prefix + "s") + " processing" == NatToString(analyzing) + " songs processing";
    assert prefix + " processing" == NatToString(analyzing) + " song processing";
    assert |prefix + " processing"| != |NatToString(analyzing) + " songs processing"|;
  }

  /**
   * The rounded label can read 100 before the batch is complete: at 199 of
   * 200 songs the panel still says "Analyzing Audio" over "100% complete".
   */
  lemma LabelRoundsUpBeforeComplete()
    ensures var p := Render(true, 199, 200, {}).value;
            p.heading == "Analyzing Audio" && p.bar.Some? && p.bar.value.rounded == 100
  {
    assert Percentage(199, 200) == 99.5;
  }
}
