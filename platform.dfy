/**
 * The platform values the keyboard controller works with: Java integers,
 * UTF-16 code units, the input-type flag words of text fields, layout
 * resource ids and the visibility of a view.
 */
module Platform {

  datatype Option<+T> = None | Some(value: T)

  /** A Java `int`, the type of key codes. */
  newtype int32 = x: int | -0x8000_0000 <= x < 0x8000_0000

  /** A UTF-16 code unit, the range of a Java `char`. */
  newtype CodeUnit = x: int | 0 <= x < 0x1_0000

  /** The input-type word of a text field: 32 bits of class and flags, combined with `|`. */
  type InputType = bv32

  const TYPE_NULL: InputType := 0
  const TYPE_CLASS_TEXT: InputType := 0x0000_0001
  const TYPE_NUMBER_FLAG_DECIMAL: InputType := 0x0000_2000
  const TYPE_TEXT_FLAG_NO_SUGGESTIONS: InputType := 0x0008_0000

  /** The two input kinds the keyboard offers its clients. */
  const INPUT_TYPE_TEXT: InputType := TYPE_CLASS_TEXT
  const INPUT_TYPE_NUMBER: InputType := TYPE_NUMBER_FLAG_DECIMAL

  /** Identity of a text field in the host window. */
  type FieldId = int

  /**
   * Keyboard layout resources are opaque ids; these stand for the three
   * layouts the code names (any three distinct values would do).
   */
  type LayoutId = int
  const QWERTY: LayoutId := 1
  const QWERTY_ARABIC: LayoutId := 2
  const NUMBERS: LayoutId := 3

  /** The visibility of the keyboard view. */
  datatype Visibility = Visible | Invisible | Gone

  /**
   * A text field of the host window: its buffer (`None` when the field
   * reports no editable text) and its input type.
   */
  datatype TextField = TextField(text: Option<seq<CodeUnit>>, inputType: InputType)
}
