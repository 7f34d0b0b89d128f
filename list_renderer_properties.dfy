/** What the rendered list looks like, and the order in which arguments are checked. */
module ListRendererProperties {
  import opened Wrappers
  import opened Decimal
  import opened Lines
  import opened ListRenderer

  const SummaryHead: string := "  ... and "
  const SummaryTail: string := " more"

  /** Reads a summary line back: the count it reports, if the line is one. */
  function ParseSummary(line: string): Option<nat> {
    if |line| >= |SummaryHead| + |SummaryTail| + 1
      && line[..|SummaryHead|] == SummaryHead
      && line[|line| - |SummaryTail|..] == SummaryTail
      && (forall i :: |SummaryHead| <= i < |line| - |SummaryTail| ==> IsDigit(line[i]))
    then Some(ParseDecimal(line[|SummaryHead|..|line| - |SummaryTail|]))
    else None
  }

  /** A summary line reports exactly the number it was built from. */
  lemma SummaryLineReports(remaining: nat)
    ensures ParseSummary(SummaryLine(remaining)) == Some(remaining)
  {
    var digits := NatToString(remaining);
    var line := SummaryLine(remaining);
    assert line == SummaryHead + digits + SummaryTail;
    assert line[|SummaryHead|..|line| - |SummaryTail|] == digits;
    assert line[..|SummaryHead|] == SummaryHead;
    assert line[|line| - |SummaryTail|..] == SummaryTail;
    forall i | |SummaryHead| <= i < |line| - |SummaryTail|
      ensures IsDigit(line[i])
    {
      assert line[i] == digits[i - |SummaryHead|];
    }
    ParseNatToString(remaining);
  }

  /** No bullet line can be mistaken for a summary line. */
  lemma BulletIsNotSummary(item: string)
    ensures ParseSummary(Bullet(item)) == None
  {
    var line := Bullet(item);
    if |line| >= |SummaryHead| {
      assert line[..|SummaryHead|][0] == '*';
    }
  }

  lemma {:induction false} DisplayLinesSingleLine(items: seq<string>, max: nat)
    requires max >= 1
    requires forall i :: 0 <= i < |items| ==> SingleLine(items[i])
    ensures forall j :: 0 <= j < |DisplayLines(items, max)| ==> SingleLine(DisplayLines(items, max)[j])
  {
    var lines := DisplayLines(items, max);
    var k := Shown(|items|, max);
    forall j | 0 <= j < |lines|
      ensures SingleLine(lines[j])
    {
      if j < k {
        assert lines[j] == "* " + items[j];
        assert LF !in items[j];
        assert forall c :: c in lines[j] ==> c in "* " || c in items[j];
      } else {
        var digits := NatToString(|items| - max);
        assert lines[j] == SummaryHead + digits + SummaryTail;
        assert forall c :: c in digits ==> IsDigit(c);
      }
    }
  }

  /** Splitting the output at line feeds gives back exactly its lines. */
  lemma RenderSplits(items: seq<string>, max: nat)
    requires max >= 1 && items != []
    requires forall i :: 0 <= i < |items| ==> SingleLine(items[i])
    ensures Split(Render(items, max)) == DisplayLines(items, max)
  {
    DisplayLinesSingleLine(items, max);
    SplitJoin(DisplayLines(items, max));
  }

  /** The output is empty exactly when there are no items. */
  lemma RenderEmptyIff(items: seq<string>, max: nat)
    requires max >= 1
    ensures Render(items, max) == "" <==> items == []
  {
    if items != [] {
      assert DisplayLines(items, max)[0] == Bullet(items[0]);
    }
  }

  /** At most `max` items: every item as a bullet, in order, and nothing else. */
  lemma RenderWhole(items: seq<string>, max: nat)
    requires max >= 1 && 0 < |items| <= max
    requires forall i :: 0 <= i < |items| ==> SingleLine(items[i])
    ensures |Split(Render(items, max))| == |items|
    ensures forall i :: 0 <= i < |items| ==> Split(Render(items, max))[i] == "* " + items[i]
  {
    RenderSplits(items, max);
  }

  /** More than `max` items: the first `max` as bullets, in order, then one
      line reporting the `n - max` left out. */
  lemma RenderTruncated(items: seq<string>, max: nat)
    requires max >= 1 && |items| > max
    requires forall i :: 0 <= i < |items| ==> SingleLine(items[i])
    ensures |Split(Render(items, max))| == max + 1
    ensures forall i :: 0 <= i < max ==> Split(Render(items, max))[i] == "* " + items[i]
    ensures Split(Render(items, max))[max] == "  ... and " + NatToString(|items| - max) + " more"
    ensures ParseSummary(Split(Render(items, max))[max]) == Some(|items| - max)
  {
    RenderSplits(items, max);
    SummaryLineReports(|items| - max);
  }

  /** The output has `min(n, max)` bullet lines and one summary line exactly
      when `n > max`, and that line reports `n - max`. */
  lemma RenderLineCount(items: seq<string>, max: nat)
    requires max >= 1 && items != []
    requires forall i :: 0 <= i < |items| ==> SingleLine(items[i])
    ensures |Split(Render(items, max))| == Shown(|items|, max) + (if |items| > max then 1 else 0)
    ensures forall j :: 0 <= j < Shown(|items|, max) ==> ParseSummary(Split(Render(items, max))[j]) == None
    ensures (exists j :: 0 <= j < |Split(Render(items, max))| && ParseSummary(Split(Render(items, max))[j]).Some?)
      <==> |items| > max
    ensures forall j :: 0 <= j < |Split(Render(items, max))| && ParseSummary(Split(Render(items, max))[j]).Some? ==>
      ParseSummary(Split(Render(items, max))[j]) == Some(|items| - max)
  {
    RenderSplits(items, max);
    var lines := DisplayLines(items, max);
    var k := Shown(|items|, max);
    forall j | 0 <= j < k
      ensures ParseSummary(lines[j]) == None
    {
      BulletIsNotSummary(items[j]);
    }
    if |items| > max {
      SummaryLineReports(|items| - max);
      assert ParseSummary(lines[k]).Some?;
    }
  }

  // ---------------------------------------------------------------------------
  // The whole call
  // ---------------------------------------------------------------------------

  /** A successful call renders every validated item in order: the empty string
      for no items, otherwise lines that split back into the display lines. */
  lemma OutputShape(args: seq<JsValue>)
    requires TruncatedList(args).Success?
    ensures var items := Texts(args[0].elements);
      var out := TruncatedList(args).value;
      (out == "" <==> items == [])
      && (items != [] ==> Split(out) == DisplayLines(items, MaxValue(args[1])))
  {
    var items := Texts(args[0].elements);
    var m := MaxValue(args[1]);
    RenderEmptyIff(items, m);
    if items != [] {
      forall i | 0 <= i < |items| ensures SingleLine(items[i]) {
        assert ValidItem(args[0].elements[i]);
      }
      RenderSplits(items, m);
    }
  }

  /** Every item is checked, displayed or not: the first faulty one decides the
      error, whatever the maximum. */
  lemma FirstFaultyItemRaises(elems: seq<JsValue>, max: JsValue, i: nat)
    requires ValidMax(max)
    requires i < |elems| && AllValidItems(elems[..i]) && !ValidItem(elems[i])
    ensures TruncatedList([Iterable(elems), max]) == Failure(ItemFault(elems[i], i).value)
  {
    var r := TruncatedList([Iterable(elems), max]);
    assert r.Failure?;
    var j :| 0 <= j < |elems| && AllValidItems(elems[..j]) && ItemFault(elems[j], j) == Some(r.error);
    FirstFaultUnique(elems, i, j);
  }

  /** Only one position can be the first faulty item. */
  lemma FirstFaultUnique(elems: seq<JsValue>, i: nat, j: nat)
    requires i < |elems| && AllValidItems(elems[..i]) && !ValidItem(elems[i])
    requires j < |elems| && AllValidItems(elems[..j]) && !ValidItem(elems[j])
    ensures i == j
  {
  }

  /** A string is refused as `items` whatever its content, with an error that
      keeps it apart from a refused `null`. */
  lemma StringItemsRefused(s: string, max: JsValue)
    ensures TruncatedList([Str(s), max]) == Failure(NotIterable(Str(s)))
    ensures TruncatedList([Str(s), max]) != TruncatedList([Null, max])
  {
  }

  /** Each way of getting `max` wrong has its own error, whatever the items,
      so also when there are none. */
  lemma MaxErrorsDistinct(elems: seq<JsValue>, x: real)
    ensures x <= 0.0 ==> TruncatedList([Iterable(elems), Num(Finite(x))]) == Failure(MaxNonPositive(x))
    ensures x > MaxSafeInteger as real ==> TruncatedList([Iterable(elems), Num(Finite(x))]) == Failure(MaxTooLarge)
    ensures 0.0 < x <= MaxSafeInteger as real && !IsInteger(x) ==>
      TruncatedList([Iterable(elems), Num(Finite(x))]) == Failure(MaxNonInteger(x))
    ensures TruncatedList([Iterable(elems), Num(Infinity)]) == Failure(MaxInfinite)
  {
  }

  lemma SliceMiddle(p: string, w: string, t: string)
    ensures var s := p + (w + t);
      s[|s| - |t|..] == t && s[|p|..|s| - |t|] == w
  {
    var s := p + (w + t);
    assert s[|p|..] == w + t;
  }

  const ArityTail: string := " arguments instead."

  /** The arity error's text gives the count back: the word "no" for zero,
      otherwise the count's decimal digits. */
  lemma ArityMessageReportsCount(n: nat, show: Renderer)
    ensures var msg := Message(ArityError(n), show);
      |msg| >= |ArityPrefix| + |ArityTail| && msg[|msg| - |ArityTail|..] == ArityTail
      && var word := msg[|ArityPrefix|..|msg| - |ArityTail|];
      (n == 0 <==> word == "no")
      && (n > 0 ==> (forall i :: 0 <= i < |word| ==> IsDigit(word[i])) && ParseDecimal(word) == n)
  {
    var msg := Message(ArityError(n), show);
    var word := if n == 0 then "no" else NatToString(n);
    assert MessageParts(ArityError(n), show) == (ArityPrefix, word + ArityTail);
    SliceMiddle(ArityPrefix, word, ArityTail);
    if n > 0 {
      ParseNatToString(n);
    }
  }
}
