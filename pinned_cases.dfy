/** The calls both test suites make, with the results and errors they pin. */
module PinnedCases {
  import opened Wrappers
  import opened Decimal
  import opened Lines
  import opened ListRenderer

  const ABC: seq<JsValue> := [Str("a"), Str("b"), Str("c")]
  /** `new Set(['1', '2', '3', '4', '5'])`, in insertion order. */
  const OneToFive: seq<JsValue> := [Str("1"), Str("2"), Str("3"), Str("4"), Str("5")]
  /** `new Map()`, and also `Buffer.alloc(0)`: iterables that yield nothing. */
  const EmptyIterable: JsValue := Iterable([])
  const MaxSafe: JsValue := Num(Finite(MaxSafeInteger as real))

  lemma ListsEveryItem()
    ensures TruncatedList([Iterable(ABC), Num(Finite(3.0))]) == Success("* a\n* b\n* c")
  {
    assert AllValidItems(ABC);
    assert Texts(ABC) == ["a", "b", "c"];
    RenderABC();
  }

  lemma RenderABC()
    ensures Render(["a", "b", "c"], 3) == "* a\n* b\n* c"
  {
    var lines := DisplayLines(["a", "b", "c"], 3);
    assert lines[0] == "* a" && lines[1] == "* b" && lines[2] == "* c";
    assert lines == ["* a", "* b", "* c"];
    JoinThree("* a", "* b", "* c");
  }

  lemma TruncatesToMax()
    ensures TruncatedList([Iterable(OneToFive), Num(Finite(2.0))]) == Success("* 1\n* 2\n  ... and 3 more")
  {
    assert AllValidItems(OneToFive);
    assert Texts(OneToFive) == ["1", "2", "3", "4", "5"];
    RenderOneToFive();
  }

  lemma RenderOneToFive()
    ensures Render(["1", "2", "3", "4", "5"], 2) == "* 1\n* 2\n  ... and 3 more"
  {
    TruncatedLines();
    JoinTruncatedLines();
  }

  lemma TruncatedLines()
    ensures DisplayLines(["1", "2", "3", "4", "5"], 2) == ["* 1", "* 2", "  ... and 3 more"]
  {
    assert NatToString(3) == "3";
    var lines := DisplayLines(["1", "2", "3", "4", "5"], 2);
    assert lines[0] == "* 1" && lines[1] == "* 2" && lines[2] == "  ... and 3 more";
  }

  lemma JoinTruncatedLines()
    ensures Join(["* 1", "* 2", "  ... and 3 more"]) == "* 1\n* 2\n  ... and 3 more"
  {
    JoinThree("* 1", "* 2", "  ... and 3 more");
  }

  lemma EmptyIterableGivesEmptyString()
    ensures TruncatedList([EmptyIterable, MaxSafe]) == Success("")
  {
  }

  /** A regular expression (non-iterable), `null` and a string are each refused. */
  lemma NonIterableItemsRefused()
    ensures TruncatedList([Opaque, Num(Finite(1.0))]) == Failure(NotIterable(Opaque))
    ensures TruncatedList([Null, Num(Finite(1.0))]) == Failure(NotIterable(Null))
    ensures TruncatedList([Str("abc"), Num(Finite(1.0))]) == Failure(NotIterable(Str("abc")))
  {
  }

  /** `['1', Object]` with max 1: the second item is not displayed but still checked. */
  lemma HiddenNonStringItemRaises()
    ensures TruncatedList([Iterable([Str("1"), Opaque]), Num(Finite(1.0))]) == Failure(ItemNotString(1, Opaque))
  {
  }

  lemma EmptyItemRaises(show: Renderer)
    ensures TruncatedList([Iterable([Str("")]), Num(Finite(1.0))]) == Failure(ItemEmpty(0))
    ensures Message(ItemEmpty(0), show)
      == "Expected every value of the given iterable object to be a "
        + "non-empty string, but included '' (empty string)."
  {
  }

  lemma MultilineItemRaises()
    ensures TruncatedList([Iterable([Str("x\ny")]), Num(Finite(1.0))]) == Failure(ItemMultiline(0, "x\ny"))
  {
  }

  /** Each bad `max` has its own error, checked although there are no items. */
  lemma BadMaxRaises(show: Renderer)
    ensures TruncatedList([Iterable([]), EmptyIterable]) == Failure(MaxNotNumber(EmptyIterable))
    ensures TruncatedList([Iterable([]), Num(Finite(0.0))]) == Failure(MaxNonPositive(0.0))
    ensures TruncatedList([Iterable([]), Num(Infinity)]) == Failure(MaxInfinite)
    ensures TruncatedList([Iterable([]), Num(Finite((MaxSafeInteger + 1) as real))]) == Failure(MaxTooLarge)
    ensures TruncatedList([Iterable([]), Num(Finite(1.1))]) == Failure(MaxNonInteger(1.1))
    ensures Message(MaxInfinite, show)
      == "Expected a maximum number of list items (positive integer), but got " + "Infinity."
    ensures Message(MaxTooLarge, show)
      == "Expected a maximum number of list items (positive integer), but got " + "a too large number."
  {
  }

  /** The argument count is checked first, even when `max` is also invalid. */
  lemma ArityChecked(show: Renderer)
    ensures TruncatedList([]) == Failure(ArityError(0))
    ensures TruncatedList([Iterable([]), Num(Finite(0.0)), Str("")]) == Failure(ArityError(3))
    ensures Message(ArityError(0), show)
      == "Expected 2 arguments (<Iterable<string>>, <integer>), but got " + "no" + " arguments instead."
    ensures Message(ArityError(3), show)
      == "Expected 2 arguments (<Iterable<string>>, <integer>), but got " + "3" + " arguments instead."
  {
  }

  /** The texts whose variable part comes from value rendering, given the
      renderings the suites show for `null`, `0`, `1.1` and `'x\ny'`. */
  lemma NullMessage(show: Renderer)
    requires show.inspectWithKind(Null) == "null"
    ensures Message(NotIterable(Null), show)
      == "Expected an iterable object except for string, but got " + ("null" + ".")
  {
  }

  lemma NonPositiveMessage(show: Renderer)
    requires show.numberText(0.0) == "0"
    ensures Message(MaxNonPositive(0.0), show)
      == "Expected a maximum number of list items (positive integer), but got " + ("a non-positive value " + "0" + ".")
  {
  }

  lemma NonIntegerMessage(show: Renderer)
    requires show.numberText(1.1) == "1.1"
    ensures Message(MaxNonInteger(1.1), show)
      == "Expected a maximum number of list items (positive integer), but got " + ("a non-integer number " + "1.1" + ".")
  {
  }

  lemma MultilineMessage(show: Renderer)
    requires show.inspect(Str("x\ny")) == "'x\\ny'"
    ensures Message(ItemMultiline(0, "x\ny"), show)
      == "Expected every value of the given iterable object to be a "
        + ("single-line string, but included a multiline string " + "'x\\ny'" + ".")
  {
  }
}
