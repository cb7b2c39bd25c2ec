/**
 * Values as the XAML data-binding engine hands them to a value converter
 * and takes them back: a boxed object whose runtime type the converter tests.
 */
module Binding {

  const Int32Min: int := -0x8000_0000
  const Int32Max: int := 0x7FFF_FFFF

  /** A .NET System.Int32. */
  newtype Int32 = x: int | -0x8000_0000 <= x < 0x8000_0000

  /** Windows.UI.Xaml.Visibility. */
  datatype Visibility = Visible | Collapsed

  /** A boxed object: what a converter receives as its value or parameter, and what it returns. */
  datatype Value =
    | Null
    | Int32Value(i: Int32)
    | BooleanValue(b: bool)
    | StringValue(s: string)
    | VisibilityValue(v: Visibility)
    | OtherValue(typeName: string)  // any other boxed object, known only by its runtime type

  /** The System.Type a binding asks a converter to produce. */
  datatype TargetType = TargetType(name: string)

  /** The exception every ConvertBack of this application throws. */
  datatype ConverterError = NotImplemented
}
