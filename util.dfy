/**
 * util.py: `IntRange`, the argument type that accepts an integer within
 * optional inclusive bounds and otherwise raises `ArgumentTypeError` with a
 * message that names the bounds that are set.
 */
module Util {
  import opened Wrappers
  import opened Text

  /** argparse's `ArgumentTypeError`, reduced to its message. */
  datatype ArgumentTypeError = ArgumentTypeError(message: string)

  /**
   * How the two-bound message renders its bounds: as the program writes it,
   * a Python tuple inside brackets, `[(1, 65535)]`; as evidently intended, the
   * interval `[1, 65535]`.
   */
  datatype RangeStyle = TupleInBrackets | Interval

  const MessageBase := "Must be an integer"
  const AtLeast := " >= "
  const AtMost := " <= "
  const InRange := " in the range "

  function Open(style: RangeStyle): string
  {
    match style
    case TupleInBrackets => "[("
    case Interval => "["
  }

  function Close(style: RangeStyle): string
  {
    match style
    case TupleInBrackets => ")]"
    case Interval => "]"
  }

  /** The message for the bounds that are set (util.py:21-29). */
  function Message(min: Option<int>, max: Option<int>, style: RangeStyle): string
  {
    if min.Some? && max.Some? then
      MessageBase + InRange + Open(style) + IntToString(min.value) + ", " + IntToString(max.value) + Close(style)
    else if min.Some? then MessageBase + AtLeast + IntToString(min.value)
    else if max.Some? then MessageBase + AtMost + IntToString(max.value)
    else MessageBase
  }

  /** An `IntRange(min, max)` object; the bounds are set once and never change. */
  datatype IntRange = IntRange(min: Option<int>, max: Option<int>)
  {
    /** Both bounds are inclusive; a missing bound does not constrain. */
    predicate Admits(value: int)
    {
      (min.None? || min.value <= value) && (max.None? || value <= max.value)
    }

    /** `str()` can write both bounds (see `Text.MaxStrDigits`). */
    predicate BoundsPrintable()
    {
      (min.Some? ==> Printable(min.value)) && (max.Some? ==> Printable(max.value))
    }

    /** `IntRange.exception()`: the error for the bounds that are set. */
    function Exception(): (e: ArgumentTypeError)
      ensures StartsWith(e.message, MessageBase)
      ensures e.message == MessageBase <==> min.None? && max.None?
    {
      ArgumentTypeError(Message(min, max, TupleInBrackets))
    }

    /** The message the two-bound case evidently means to give. */
    function IntendedException(): (e: ArgumentTypeError)
      ensures StartsWith(e.message, MessageBase)
      ensures e.message == MessageBase <==> min.None? && max.None?
    {
      ArgumentTypeError(Message(min, max, Interval))
    }

    /**
     * `IntRange.__call__(arg)`: the integer `arg` spells when it lies within
     * the bounds; the error from `Exception()` when `int(arg)` fails or the
     * value lies outside them.
     */
    function Call(arg: string): (r: Result<int, ArgumentTypeError>)
      ensures r.Success? <==> ParseInt(arg).Some? && Admits(ParseInt(arg).value)
      ensures r.Success? ==> r.value == ParseInt(arg).value
      ensures r.Failure? ==> r.error == Exception()
    {
      match ParseInt(arg)
      case None => Failure(Exception())
      case Some(value) =>
        if (min.Some? && value < min.value) || (max.Some? && value > max.value) then
          Failure(Exception())
        else
          Success(value)
    }
  }

  /**
   * Reads the bounds back out of a message in the given style: the inverse of
   * `Message`, used to show that the message names exactly the bounds set.
   */
  function DecodeMessage(msg: string, style: RangeStyle): Option<IntRange>
  {
    if msg == MessageBase then Some(IntRange(None, None))
    else if StartsWith(msg, MessageBase + AtLeast) then
      match ParseInt(msg[|MessageBase + AtLeast|..])
      case None => None
      case Some(lo) => Some(IntRange(Some(lo), None))
    else if StartsWith(msg, MessageBase + AtMost) then
      match ParseInt(msg[|MessageBase + AtMost|..])
      case None => None
      case Some(hi) => Some(IntRange(None, Some(hi)))
    else if StartsWith(msg, MessageBase + InRange + Open(style)) && EndsWith(msg, Close(style))
            && |MessageBase + InRange + Open(style)| + |Close(style)| <= |msg| then
      DecodePair(msg[|MessageBase + InRange + Open(style)|..|msg| - |Close(style)|])
    else None
  }

  /** Reads `"lo, hi"`, the text between the brackets of a two-bound message. */
  function DecodePair(inner: string): Option<IntRange>
  {
    var parts := Split(inner, ',');
    if |parts| == 2 && ParseInt(parts[0]).Some? && ParseInt(parts[1]).Some? then
      Some(IntRange(Some(ParseInt(parts[0]).value), Some(ParseInt(parts[1]).value)))
    else None
  }

  /** A two-bound message is decoded from the text between its brackets. */
  lemma DecodeRangeMessage(style: RangeStyle, inner: string)
    ensures DecodeMessage(MessageBase + InRange + Open(style) + inner + Close(style), style) == DecodePair(inner)
  {
    var prefix := MessageBase + InRange + Open(style);
    var msg := prefix + inner + Close(style);
    assert msg[|MessageBase| + 1] == 'i';
    assert msg != MessageBase;
    assert !StartsWith(msg, MessageBase + AtLeast) by {
      assert (MessageBase + AtLeast)[|MessageBase| + 1] == '>';
    }
    assert !StartsWith(msg, MessageBase + AtMost) by {
      assert (MessageBase + AtMost)[|MessageBase| + 1] == '<';
    }
    assert msg[..|prefix|] == prefix;
    assert msg[|msg| - |Close(style)|..] == Close(style);
    assert msg[|prefix|..|msg| - |Close(style)|] == inner;
  }

  lemma NoComma(n: int)
    ensures ',' !in IntToString(n) && ',' !in " " + IntToString(n)
  {
    var s := IntToString(n);
    forall i | 0 <= i < |" " + s|
      ensures (" " + s)[i] != ','
    {
      if i > 0 { assert (" " + s)[i] == s[i - 1]; }
    }
  }

  /** The middle of a two-bound message splits into the two bounds. */
  lemma SplitBounds(lo: int, hi: int)
    ensures Split(IntToString(lo) + ", " + IntToString(hi), ',') == [IntToString(lo), " " + IntToString(hi)]
  {
    var a, b := IntToString(lo), " " + IntToString(hi);
    NoComma(lo);
    NoComma(hi);
    assert IntToString(lo) + ", " + IntToString(hi) == Join([a, b], ',');
    SplitJoin([a, b], ',');
  }

  /** The message names exactly the bounds that are set, in either style. */
  lemma DecodeMessageRoundTrip(r: IntRange, style: RangeStyle)
    requires r.BoundsPrintable()
    ensures DecodeMessage(Message(r.min, r.max, style), style) == Some(r)
  {
    var msg := Message(r.min, r.max, style);
    if r.min.Some? && r.max.Some? {
      var inner := IntToString(r.min.value) + ", " + IntToString(r.max.value);
      assert msg == MessageBase + InRange + Open(style) + inner + Close(style);
      DecodeRangeMessage(style, inner);
      SplitBounds(r.min.value, r.max.value);
      ParseIntRoundTrip(r.min.value);
      ParseIntAfterSpace(r.max.value);
    } else if r.min.Some? {
      var prefix := MessageBase + AtLeast;
      assert msg == prefix + IntToString(r.min.value);
      assert msg[..|prefix|] == prefix;
      assert msg[|prefix|..] == IntToString(r.min.value);
      ParseIntRoundTrip(r.min.value);
    } else if r.max.Some? {
      var prefix := MessageBase + AtMost;
      assert msg == prefix + IntToString(r.max.value);
      assert msg[..|prefix|] == prefix;
      assert msg[|prefix|..] == IntToString(r.max.value);
      assert !StartsWith(msg, MessageBase + AtLeast) by {
        assert msg[|MessageBase| + 1] == '<';
        assert (MessageBase + AtLeast)[|MessageBase| + 1] == '>';
      }
      ParseIntRoundTrip(r.max.value);
    }
  }

  /** Different bounds give different messages: the error tells which bounds apply. */
  lemma ExceptionDeterminesBounds(r1: IntRange, r2: IntRange)
    requires r1.BoundsPrintable() && r2.BoundsPrintable()
    requires r1.Exception() == r2.Exception()
    ensures r1 == r2
  {
    DecodeMessageRoundTrip(r1, TupleInBrackets);
    DecodeMessageRoundTrip(r2, TupleInBrackets);
  }

  /**
   * As written, a two-bound message cannot be read as an interval: the text
   * in brackets starts with the tuple's parenthesis, so its lower bound does
   * not parse.
   */
  lemma TupleMessageIsNotInterval(r: IntRange)
    requires r.min.Some? && r.max.Some?
    ensures DecodeMessage(r.Exception().message, Interval) == None
  {
    var inner := "(" + IntToString(r.min.value) + ", " + IntToString(r.max.value) + ")";
    assert r.Exception().message == MessageBase + InRange + Open(Interval) + inner + Close(Interval);
    DecodeRangeMessage(Interval, inner);
    SplitFirstChar(inner, ',');
    ParseIntRejectsLeading(Split(inner, ',')[0]);
  }

  lemma PortBoundsText()
    ensures IntToString(1) == "1" && IntToString(65535) == "65535"
  {
    assert NatToString(6) == "6";
    assert NatToString(65) == "65";
    assert NatToString(655) == "655";
    assert NatToString(6553) == "6553";
  }

  /** The port option's bounds: the message shows a tuple where an interval is meant. */
  lemma PortRangeMessage()
    ensures IntRange(Some(1), Some(65535)).Exception().message == "Must be an integer in the range [(1, 65535)]"
    ensures IntRange(Some(1), Some(65535)).IntendedException().message == "Must be an integer in the range [1, 65535]"
  {
    PortBoundsText();
    var tuple := Message(Some(1), Some(65535), TupleInBrackets);
    var interval := Message(Some(1), Some(65535), Interval);
    assert tuple == MessageBase + InRange + "[(" + IntToString(1) + ", " + IntToString(65535) + ")]";
    assert interval == MessageBase + InRange + "[" + IntToString(1) + ", " + IntToString(65535) + "]";
    assert tuple == "Must be an integer in the range [(1, 65535)]";
    assert interval == "Must be an integer in the range [1, 65535]";
  }

  /** An argument `int()` rejects gives the error and no value (util.py:11-14). */
  lemma UnparsableRejected(r: IntRange, arg: string)
    requires ParseInt(arg).None?
    ensures r.Call(arg) == Failure(r.Exception())
  {
  }

  /** A value below the lower bound or above the upper bound is refused (util.py:16-17). */
  lemma OutOfBoundsRejected(r: IntRange, arg: string)
    requires ParseInt(arg).Some?
    requires (r.min.Some? && ParseInt(arg).value < r.min.value) || (r.max.Some? && ParseInt(arg).value > r.max.value)
    ensures r.Call(arg) == Failure(r.Exception())
  {
  }

  /** Every argument spelling an integer within the inclusive bounds gives that integer back. */
  lemma InclusiveBounds(r: IntRange, arg: string, n: int)
    requires ParseInt(arg) == Some(n) && r.Admits(n)
    ensures r.Call(arg) == Success(n)
  {
  }

  /** When min <= max, each bound, written in decimal, is itself accepted: both bounds are inclusive. */
  lemma BoundsAccepted(r: IntRange)
    requires r.BoundsPrintable()
    requires r.min.Some? && r.max.Some? ==> r.min.value <= r.max.value
    ensures r.min.Some? ==> r.Call(IntToString(r.min.value)) == Success(r.min.value)
    ensures r.max.Some? ==> r.Call(IntToString(r.max.value)) == Success(r.max.value)
  {
    if r.min.Some? { ParseIntRoundTrip(r.min.value); }
    if r.max.Some? { ParseIntRoundTrip(r.max.value); }
  }

  /** Without bounds every argument `int()` accepts is returned (util.py:16, 19). */
  lemma UnboundedAcceptsAll(arg: string)
    requires ParseInt(arg).Some?
    ensures IntRange(None, None).Call(arg) == Success(ParseInt(arg).value)
  {
  }
}
