/**
 * `truncatedList(items, max)`: validates its two arguments in a fixed order and
 * renders the items as a bullet list of at most `max` lines, followed by a
 * summary line when some items are not shown.
 */
module ListRenderer {
  import opened Wrappers
  import opened Decimal
  import opened Lines

  /** `Number.MAX_SAFE_INTEGER`, 2^53 - 1. */
  const MaxSafeInteger: nat := 0x1F_FFFF_FFFF_FFFF

  /** A JavaScript number: a finite value or positive infinity. */
  datatype Number = Finite(r: real) | Infinity

  /** The JavaScript values the function can be called with. */
  datatype JsValue =
    | Undefined
    | Null
    | Str(s: string)
    | Num(n: Number)
      /** An array, Set, Map, Buffer or other iterable object (not a string), with
          the values it yields, in iteration order. */
    | Iterable(elements: seq<JsValue>)
      /** Any other non-iterable value: a regular expression, a function, a plain
          object, and also a boolean, a symbol or a BigInt. */
    | Opaque

  /** The thrown errors, one constructor per distinct message shape. */
  datatype Error =
    | ArityError(argc: nat)
    | NotIterable(got: JsValue)
    | MaxNotNumber(got: JsValue)
    | MaxNonPositive(value: real)
    | MaxInfinite
    | MaxTooLarge
    | MaxNonInteger(value: real)
    | ItemNotString(index: nat, item: JsValue)
    | ItemEmpty(index: nat)
    | ItemMultiline(index: nat, text: string)

  // ---------------------------------------------------------------------------
  // Reference definitions of acceptable arguments
  // ---------------------------------------------------------------------------

  predicate IsInteger(r: real) {
    r.Floor as real == r
  }

  /** A usable maximum: a positive safe integer. */
  predicate ValidMax(v: JsValue) {
    v.Num? && v.n.Finite? && 0.0 < v.n.r <= MaxSafeInteger as real && IsInteger(v.n.r)
  }

  /** The maximum as a natural number. */
  function MaxValue(v: JsValue): (m: nat)
    requires ValidMax(v)
    ensures 1 <= m <= MaxSafeInteger && v == Num(Finite(m as real))
  {
    v.n.r.Floor
  }

  /** A displayable item: a non-empty single-line string. */
  predicate ValidItem(v: JsValue) {
    v.Str? && v.s != "" && SingleLine(v.s)
  }

  predicate AllValidItems(elems: seq<JsValue>) {
    forall i :: 0 <= i < |elems| ==> ValidItem(elems[i])
  }

  /** The texts of a sequence of string values. */
  function Texts(elems: seq<JsValue>): (texts: seq<string>)
    requires forall i :: 0 <= i < |elems| ==> elems[i].Str?
    ensures |texts| == |elems| && forall i :: 0 <= i < |elems| ==> elems[i] == Str(texts[i])
  {
    seq(|elems|, i requires 0 <= i < |elems| => elems[i].s)
  }

  // ---------------------------------------------------------------------------
  // Validation, in the order the function performs it
  // ---------------------------------------------------------------------------

  /** `items` must be iterable and not a string (a string is iterable, but refused). */
  function CheckIterable(v: JsValue): (r: Result<seq<JsValue>, Error>)
    ensures r.Success? <==> v.Iterable?
    ensures r.Success? ==> r.value == v.elements
    ensures !v.Iterable? ==> r == Failure(NotIterable(v))
  {
    match v
    case Iterable(elems) => Success(elems)
    case _ => Failure(NotIterable(v))
  }

  /** `max` must be a number, then positive, finite, at most the safe-integer
      ceiling and an integer, each violation with its own error. */
  function CheckMax(v: JsValue): (r: Result<nat, Error>)
    ensures r.Success? <==> ValidMax(v)
    ensures r.Success? ==> r.value == MaxValue(v)
    ensures !v.Num? <==> r == Failure(MaxNotNumber(v))
    ensures v == Num(Infinity) <==> r == Failure(MaxInfinite)
    ensures forall x: real :: v == Num(Finite(x)) && x <= 0.0 ==> r == Failure(MaxNonPositive(x))
    ensures r == Failure(MaxTooLarge) <==> v.Num? && v.n.Finite? && v.n.r > MaxSafeInteger as real
    ensures forall x: real :: v == Num(Finite(x)) && 0.0 < x <= MaxSafeInteger as real && !IsInteger(x) ==>
      r == Failure(MaxNonInteger(x))
  {
    match v
    case Num(Finite(x)) =>
      if x <= 0.0 then Failure(MaxNonPositive(x))
      else if x > MaxSafeInteger as real then Failure(MaxTooLarge)
      else if !IsInteger(x) then Failure(MaxNonInteger(x))
      else Success(x.Floor)
    case Num(Infinity) => Failure(MaxInfinite)
    case _ => Failure(MaxNotNumber(v))
  }

  /** The error an item at position `index` raises, if any: not a string, then
      empty, then containing a line break. */
  function ItemFault(v: JsValue, index: nat): (fault: Option<Error>)
    ensures fault == None <==> ValidItem(v)
    ensures !v.Str? ==> fault == Some(ItemNotString(index, v))
    ensures v == Str("") ==> fault == Some(ItemEmpty(index))
    ensures v.Str? && v.s != "" && !SingleLine(v.s) ==> fault == Some(ItemMultiline(index, v.s))
  {
    if !v.Str? then Some(ItemNotString(index, v))
    else if v.s == "" then Some(ItemEmpty(index))
    else if !SingleLine(v.s) then Some(ItemMultiline(index, v.s))
    else None
  }

  /** Consumes the iterable from position `from` on, checking every element
      (displayed or not) and stopping at the first faulty one. */
  function CheckItems(elems: seq<JsValue>, from: nat): (r: Result<seq<string>, Error>)
    ensures r.Success? <==> AllValidItems(elems)
    ensures r.Success? ==> |r.value| == |elems| && forall i :: 0 <= i < |elems| ==> elems[i] == Str(r.value[i])
    ensures r.Failure? ==>
      exists i :: 0 <= i < |elems| && AllValidItems(elems[..i]) && ItemFault(elems[i], from + i) == Some(r.error)
    decreases |elems|
  {
    if elems == [] then Success([])
    else
      match ItemFault(elems[0], from)
      case Some(e) =>
        assert AllValidItems(elems[..0]);
        Failure(e)
      case None =>
        match CheckItems(elems[1..], from + 1)
        case Failure(e) =>
          ghost var i :| 0 <= i < |elems| - 1 && AllValidItems(elems[1..][..i])
            && ItemFault(elems[1..][i], from + 1 + i) == Some(e);
          ValidPrefixCons(elems, i);
          Failure(e)
        case Success(rest) =>
          ValidCons(elems);
          Success([elems[0].s] + rest)
  }

  lemma ValidPrefixCons(elems: seq<JsValue>, i: nat)
    requires i < |elems| - 1 && ValidItem(elems[0]) && AllValidItems(elems[1..][..i])
    ensures AllValidItems(elems[..i + 1])
  {
    assert elems[..i + 1] == [elems[0]] + elems[1..][..i];
  }

  lemma ValidCons(elems: seq<JsValue>)
    requires |elems| > 0
    ensures AllValidItems(elems) <==> ValidItem(elems[0]) && AllValidItems(elems[1..])
  {
    if ValidItem(elems[0]) && AllValidItems(elems[1..]) {
      forall i | 0 <= i < |elems| ensures ValidItem(elems[i]) {
        if i > 0 { assert elems[i] == elems[1..][i - 1]; }
      }
    }
  }

  // ---------------------------------------------------------------------------
  // Rendering
  // ---------------------------------------------------------------------------

  /** How many items are displayed: `min(n, max)`. */
  function Shown(n: nat, max: nat): nat {
    if n <= max then n else max
  }

  /** A displayed item: the marker `* `, then the item itself. */
  function Bullet(item: string): (line: string)
    ensures |line| == |item| + 2 && line[..2] == "* " && line[2..] == item
    ensures SingleLine(item) ==> SingleLine(line)
  {
    "* " + item
  }

  /** The line that reports how many items were not displayed. */
  function SummaryLine(remaining: nat): (line: string)
    ensures SingleLine(line)
    ensures |line| > 2 && line[..2] == "  "
  {
    var digits := NatToString(remaining);
    assert LF !in digits by {
      assert forall i :: 0 <= i < |digits| ==> IsDigit(digits[i]);
    }
    "  ... and " + digits + " more"
  }

  /** The lines of the output: the displayed bullets, then the summary line
      when items were left out. */
  function DisplayLines(items: seq<string>, max: nat): (lines: seq<string>)
    requires max >= 1
    ensures |lines| == Shown(|items|, max) + (if |items| > max then 1 else 0)
    ensures forall j :: 0 <= j < Shown(|items|, max) ==> lines[j] == Bullet(items[j])
    ensures |items| > max ==> lines[max] == SummaryLine(|items| - max)
  {
    seq(Shown(|items|, max), i requires 0 <= i < Shown(|items|, max) => Bullet(items[i]))
      + (if |items| > max then [SummaryLine(|items| - max)] else [])
  }

  /** The output: the display lines joined by line feeds. */
  function Render(items: seq<string>, max: nat): (out: string)
    requires max >= 1
    ensures out == "" <==> items == []
    ensures items != [] ==> |out| >= |items[0]| + 2 && out[..|items[0]| + 2] == Bullet(items[0])
  {
    var lines := DisplayLines(items, max);
    assert items != [] ==> lines[0] == Bullet(items[0]);
    Join(lines)
  }

  /** `truncatedList(...args)`: the arity check, then `items`, then `max`, then
      every item; on success the rendered list. */
  function TruncatedList(args: seq<JsValue>): (r: Result<string, Error>)
    ensures |args| != 2 ==> r == Failure(ArityError(|args|))
    ensures |args| == 2 && !args[0].Iterable? ==> r == Failure(NotIterable(args[0]))
    ensures |args| == 2 && args[0].Iterable? && !ValidMax(args[1]) ==> r == Failure(CheckMax(args[1]).error)
    ensures r.Success? <==>
      |args| == 2 && args[0].Iterable? && ValidMax(args[1]) && AllValidItems(args[0].elements)
    ensures r.Success? ==> r.value == Render(Texts(args[0].elements), MaxValue(args[1]))
    ensures r.Failure? && |args| == 2 && args[0].Iterable? && ValidMax(args[1]) ==>
      exists i :: 0 <= i < |args[0].elements| && AllValidItems(args[0].elements[..i])
        && ItemFault(args[0].elements[i], i) == Some(r.error)
  {
    if |args| != 2 then Failure(ArityError(|args|))
    else
      var elems :- CheckIterable(args[0]);
      var max :- CheckMax(args[1]);
      var items :- CheckItems(elems, 0);
      assert items == Texts(elems);
      Success(Render(items, max))
  }

  // ---------------------------------------------------------------------------
  // Error messages
  // ---------------------------------------------------------------------------

  /** How values are written inside messages: `util.inspect`, the
      kind-labelled `inspect-with-kind`, and JavaScript's number-to-string. */
  datatype Renderer = Renderer(
    inspect: JsValue -> string,
    inspectWithKind: JsValue -> string,
    numberText: real -> string)

  const ArityPrefix: string := "Expected 2 arguments (<Iterable<string>>, <integer>), but got "
  const IterablePrefix: string := "Expected an iterable object except for string, but got "
  const MaxPrefix: string := "Expected a maximum number of list items (positive integer), but got "
  const ItemPrefix: string := "Expected every value of the given iterable object to be a "

  /** The text of the thrown error: a fixed opening per family of errors, then
      what was wrong. */
  function Message(e: Error, show: Renderer): (msg: string)
    ensures e.ArityError? ==> ArityPrefix <= msg
    ensures e.NotIterable? ==> IterablePrefix <= msg
    ensures e.MaxNotNumber? || e.MaxNonPositive? || e.MaxInfinite? || e.MaxTooLarge? || e.MaxNonInteger? ==>
      MaxPrefix <= msg
    ensures e.ItemNotString? || e.ItemEmpty? || e.ItemMultiline? ==> ItemPrefix <= msg
  {
    var (prefix, rest) := MessageParts(e, show);
    PrefixOfConcat(prefix, rest);
    prefix + rest
  }

  /** The opening of `e`'s message and the rest of it. */
  function MessageParts(e: Error, show: Renderer): (string, string) {
    match e
    case ArityError(n) => (ArityPrefix, (if n == 0 then "no" else NatToString(n)) + " arguments instead.")
    case NotIterable(v) => (IterablePrefix, show.inspectWithKind(v) + ".")
    case MaxNotNumber(v) => (MaxPrefix, "a non-number value " + show.inspect(v) + ".")
    case MaxNonPositive(x) => (MaxPrefix, "a non-positive value " + show.numberText(x) + ".")
    case MaxInfinite => (MaxPrefix, "Infinity.")
    case MaxTooLarge => (MaxPrefix, "a too large number.")
    case MaxNonInteger(x) => (MaxPrefix, "a non-integer number " + show.numberText(x) + ".")
    case ItemNotString(_, v) => (ItemPrefix, "string, but included " + show.inspect(v) + ".")
    case ItemEmpty(_) => (ItemPrefix, "non-empty string, but included '' (empty string).")
    case ItemMultiline(_, s) => (ItemPrefix, "single-line string, but included a multiline string " + show.inspect(Str(s)) + ".")
  }

  lemma PrefixOfConcat(a: string, b: string)
    ensures a <= a + b
  {
    assert (a + b)[..|a|] == a;
  }
}
