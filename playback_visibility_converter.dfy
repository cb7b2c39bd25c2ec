/**
 * The converter that shows the playback controls only when the selected
 * camera has more than one frame to play.
 */
module PlaybackVisibilityConverter {
  import opened Wrappers
  import opened Binding

  /**
   * An Int32 frame count becomes Visible when it exceeds one and Collapsed
   * otherwise (zero and negatives included); any other value is returned as is.
   */
  function Convert(value: Value, targetType: TargetType, parameter: Value, language: string): (r: Value)
    ensures value.Int32Value? ==> r.VisibilityValue? && (r.v == Visible <==> value.i > 1)
    ensures !value.Int32Value? ==> r == value
  {
    match value
    case Int32Value(count) => VisibilityValue(if count > 1 then Visible else Collapsed)
    case _ => value
  }

  /** Converting back is not supported: it always throws. */
  function ConvertBack(value: Value, targetType: TargetType, parameter: Value, language: string): (r: Result<Value, ConverterError>)
    ensures r.Failure? && r.error == NotImplemented
  {
    Failure(NotImplemented)
  }

  /** The result depends on the value alone, never on the target type, parameter or language. */
  lemma ValueAloneDecides(value: Value, t1: TargetType, p1: Value, l1: string, t2: TargetType, p2: Value, l2: string)
    ensures Convert(value, t1, p1, l1) == Convert(value, t2, p2, l2)
  {
  }

  /** More frames never hide controls that fewer frames show. */
  lemma VisibilityMonotone(a: Int32, b: Int32, t: TargetType, p: Value, l: string)
    requires a <= b
    requires Convert(Int32Value(a), t, p, l) == VisibilityValue(Visible)
    ensures Convert(Int32Value(b), t, p, l) == VisibilityValue(Visible)
  {
  }
}
