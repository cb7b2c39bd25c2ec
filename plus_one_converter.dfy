/**
 * The converter that shows the 0-based frame cursor as a 1-based frame number.
 * The addition is C#'s unchecked Int32 addition, which wraps around.
 */
module PlusOneConverter {
  import opened Wrappers
  import opened Binding
  import Playback

  /** Reduces an integer into the Int32 range modulo 2^32, as unchecked C# arithmetic does. */
  function WrapInt32(x: int): (r: Int32)
    ensures Int32Min <= x <= Int32Max ==> r as int == x
    ensures (x - r as int) % 0x1_0000_0000 == 0
  {
    ((x - Int32Min) % 0x1_0000_0000 + Int32Min) as Int32
  }

  /**
   * An Int32 n becomes n + 1, except that Int32.MaxValue wraps to Int32.MinValue;
   * any other value is returned as is.
   */
  function Convert(value: Value, targetType: TargetType, parameter: Value, language: string): (r: Value)
    ensures value.Int32Value? && value.i as int < Int32Max ==> r.Int32Value? && r.i as int == value.i as int + 1
    ensures value.Int32Value? && value.i as int == Int32Max ==> r.Int32Value? && r.i as int == Int32Min
    ensures !value.Int32Value? ==> r == value
  {
    match value
    case Int32Value(n) => Int32Value(WrapInt32(n as int + 1))
    case _ => value
  }

  /** Converting back is not supported: it always throws. */
  function ConvertBack(value: Value, targetType: TargetType, parameter: Value, language: string): (r: Result<Value, ConverterError>)
    ensures r.Failure? && r.error == NotImplemented
  {
    Failure(NotImplemented)
  }

  /** Unchecked decrement, the inverse of the conversion on Int32 values. */
  function MinusOne(n: Int32): (r: Int32)
    ensures n as int > Int32Min ==> r as int == n as int - 1
    ensures n as int == Int32Min ==> r as int == Int32Max
  {
    WrapInt32(n as int - 1)
  }

  /** Taking one away from the displayed number gives the Int32 back, wrap-around included. */
  lemma MinusOneUndoesConvert(n: Int32, t: TargetType, p: Value, l: string)
    ensures Convert(Int32Value(n), t, p, l).Int32Value?
    ensures MinusOne(Convert(Int32Value(n), t, p, l).i) == n
  {
  }

  /** Distinct Int32 values are displayed as distinct numbers. */
  lemma ConvertInjective(a: Int32, b: Int32, t: TargetType, p: Value, l: string)
    requires Convert(Int32Value(a), t, p, l) == Convert(Int32Value(b), t, p, l)
    ensures a == b
  {
    MinusOneUndoesConvert(a, t, p, l);
    MinusOneUndoesConvert(b, t, p, l);
  }

  /**
   * The frame number shown for a cursor on a frame is exact: it runs from 1 to
   * Count and never wraps, for any frame count an Int32 can hold.
   */
  lemma FrameNumberInRange(s: Playback.PanelState, t: TargetType, p: Value, l: string)
    requires Playback.Valid(s) && 0 <= s.position && s.count <= Int32Max
    ensures Convert(Int32Value(s.position as Int32), t, p, l).Int32Value?
    ensures Convert(Int32Value(s.position as Int32), t, p, l).i as int == s.position + 1
    ensures 1 <= s.position + 1 <= s.count
  {
  }
}
