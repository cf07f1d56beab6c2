/**
 * The key-event controller of the custom keyboard as a state machine on
 * values: what one `onKey` event does to the fields of the host window,
 * the language flag and the installed layout.
 */
module KeyboardModel {
  import opened Platform
  import opened Editable

  const CODE_DELETE: int32 := -5
  const CODE_LANGUAGE_EN: int32 := -6
  const CODE_LANGUAGE_AR: int32 := -7
  const CODE_SPACE: int32 := 32

  /** The unit a space key inserts. */
  const SPACE: CodeUnit := 0x20

  /**
   * The controller's state together with the platform state it consults:
   * the fields of the host window, the window's current focus, the field
   * the controller last looked at (`mEditText`), the language flag, the
   * layout installed on the keyboard view, the view's visibility and
   * enabled flag, and the fields whose focus, click and touch listeners
   * are installed.
   */
  datatype KeyboardState = KeyboardState(
    fields: map<FieldId, TextField>,
    focus: Option<FieldId>,
    editText: Option<FieldId>,
    isEnglish: bool,
    layout: Option<LayoutId>,
    visibility: Visibility,
    enabled: bool,
    listening: set<FieldId>)
  {
    /** Focus, the controller's field and the listening fields all are fields of the window. */
    predicate Valid() {
      && (focus.Some? ==> focus.value in fields)
      && (editText.Some? ==> editText.value in fields)
      && listening <= fields.Keys
    }
  }

  /** What `onKey` does with a key code, decided by the code alone. */
  datatype KeyAction = DeleteBack | SpaceAtEnd | ToArabic | ToEnglish | InsertUnit(unit: CodeUnit)

  /** The narrowing cast `(char) code`: the unit congruent to the code modulo 2^16. */
  function ToChar(code: int32): (c: CodeUnit)
    ensures (code as int - c as int) % 0x1_0000 == 0
  {
    (code as int % 0x1_0000) as CodeUnit
  }

  /** The dispatch of `onKey`: four reserved codes, every other code is text. */
  function Classify(code: int32): (a: KeyAction)
    ensures a == DeleteBack <==> code == CODE_DELETE
    ensures a == SpaceAtEnd <==> code == CODE_SPACE
    ensures a == ToArabic <==> code == CODE_LANGUAGE_AR
    ensures a == ToEnglish <==> code == CODE_LANGUAGE_EN
    ensures a.InsertUnit? ==> a.unit == ToChar(code)
  {
    if code == CODE_DELETE then DeleteBack
    else if code == CODE_SPACE then SpaceAtEnd
    else if code == CODE_LANGUAGE_AR then ToArabic
    else if code == CODE_LANGUAGE_EN then ToEnglish
    else InsertUnit(ToChar(code))
  }

  /**
   * The keyboard `notifyKeyBoardLayout` installs for a field of the given
   * input type: one branch per input kind, each installing the requested layout.
   */
  function KeyboardFor(inputType: InputType, layoutId: LayoutId): (installed: LayoutId)
    ensures installed == layoutId
  {
    if inputType == INPUT_TYPE_TEXT then layoutId
    else if inputType == INPUT_TYPE_NUMBER then layoutId
    else layoutId
  }

  /**
   * The input type a registration asks for: the prior one with the
   * no-suggestions flag added and every other bit kept.
   */
  function WithNoSuggestions(t: InputType): (r: InputType)
    ensures r & TYPE_TEXT_FLAG_NO_SUGGESTIONS == TYPE_TEXT_FLAG_NO_SUGGESTIONS
    ensures r & !TYPE_TEXT_FLAG_NO_SUGGESTIONS == t & !TYPE_TEXT_FLAG_NO_SUGGESTIONS
  {
    t | TYPE_TEXT_FLAG_NO_SUGGESTIONS
  }

  /** Neither input kind the keyboard offers carries the no-suggestions flag. */
  lemma InputKindsLackNoSuggestions()
    ensures INPUT_TYPE_TEXT & TYPE_TEXT_FLAG_NO_SUGGESTIONS == 0
    ensures INPUT_TYPE_NUMBER & TYPE_TEXT_FLAG_NO_SUGGESTIONS == 0
  {
  }

  /**
   * What the buffer operations demand of a key event on the focused field:
   * a delete needs the cursor within the buffer, an insertion needs a
   * buffer and the cursor within it.
   */
  predicate KeyDefined(s: KeyboardState, code: int32, start: int) {
    s.focus.Some? && s.focus.value in s.fields ==>
      var text := s.fields[s.focus.value].text;
      match Classify(code)
      case DeleteBack => text.Some? ==> start <= |text.value|
      case InsertUnit(_) => text.Some? && 0 <= start <= |text.value|
      case _ => true
  }

  /**
   * One `onKey(code)` event, with `start` the selection start the focused
   * field reports. Only the focused field, looked up at event time, is
   * touched; with no focus only the controller's field reference is cleared.
   */
  function KeyStep(s: KeyboardState, code: int32, start: int): (r: KeyboardState)
    requires s.Valid() && KeyDefined(s, code, start)
    ensures r.Valid()
    ensures r.editText == s.focus
    ensures r.fields.Keys == s.fields.Keys
    ensures forall id :: id in s.fields && s.focus != Some(id) ==> r.fields[id] == s.fields[id]
    ensures forall id :: id in s.fields ==> r.fields[id].inputType == s.fields[id].inputType
    ensures r.focus == s.focus && r.visibility == s.visibility && r.enabled == s.enabled
    ensures r.listening == s.listening
    ensures s.focus.None? ==> r == s.(editText := None)
  {
    match s.focus
    case None => s.(editText := None)
    case Some(id) =>
      var field := s.fields[id];
      var t := s.(editText := Some(id));
      match Classify(code)
      case DeleteBack =>
        if field.text.Some? && start > 0 then
          t.(fields := s.fields[id := field.(text := Some(Delete(field.text.value, start - 1, start)))])
        else t
      case SpaceAtEnd =>
        if field.text.Some? && |field.text.value| > 0 then
          t.(fields := s.fields[id := field.(text := Some(Insert(field.text.value, |field.text.value|, SPACE)))])
        else t
      case ToArabic =>
        if s.isEnglish then t.(layout := Some(KeyboardFor(field.inputType, QWERTY_ARABIC)), isEnglish := false)
        else t
      case ToEnglish =>
        if !s.isEnglish then t.(layout := Some(KeyboardFor(field.inputType, QWERTY)), isEnglish := true)
        else t
      case InsertUnit(c) =>
        t.(fields := s.fields[id := field.(text := Some(Insert(field.text.value, start, c)))])
  }

  /** The focused field holds the buffer `text`. */
  predicate FocusedText(s: KeyboardState, text: seq<CodeUnit>) {
    s.focus.Some? && s.focus.value in s.fields && s.fields[s.focus.value].text == Some(text)
  }

  // ---------------------------------------------------------------------
  // The key codes

  /** Enter (10) and cancel (-3) are not reserved: they are typed as text. */
  lemma EnterAndCancelAreText()
    ensures Classify(10) == InsertUnit(10)
    ensures Classify(-3) == InsertUnit(0xFFFD)
  {
  }

  /** Every code outside the four reserved ones inserts its low 16 bits. */
  lemma {:induction false} OtherCodesInsert(code: int32)
    requires code !in {CODE_DELETE, CODE_SPACE, CODE_LANGUAGE_AR, CODE_LANGUAGE_EN}
    ensures Classify(code).InsertUnit?
    ensures 0 <= code < 0x1_0000 ==> Classify(code).unit as int == code as int
    ensures -0x1_0000 <= code < 0 ==> Classify(code).unit as int == code as int + 0x1_0000
  {
  }

  // ---------------------------------------------------------------------
  // The effect of each kind of key on the focused field

  /** Delete removes exactly the unit before the cursor, and nothing when the cursor is at 0. */
  lemma DeleteRemovesUnitBeforeCursor(s: KeyboardState, text: seq<CodeUnit>, start: int)
    requires s.Valid() && FocusedText(s, text) && start <= |text|
    ensures var r := KeyStep(s, CODE_DELETE, start);
      && r.isEnglish == s.isEnglish && r.layout == s.layout
      && (start <= 0 ==> r.fields == s.fields)
      && (start > 0 ==> FocusedText(r, text[..start - 1] + text[start..]))
  {
  }

  /** Space appends one space at the end, whatever the cursor, and does nothing to an empty buffer. */
  lemma SpaceAppendsAtEnd(s: KeyboardState, text: seq<CodeUnit>, start: int)
    requires s.Valid() && FocusedText(s, text)
    ensures var r := KeyStep(s, CODE_SPACE, start);
      && r.isEnglish == s.isEnglish && r.layout == s.layout
      && (|text| == 0 ==> r.fields == s.fields)
      && (|text| > 0 ==> FocusedText(r, text + [SPACE]))
  {
    InsertAtEndAppends(text, SPACE);
  }

  /** On a focused field without an editable, delete and space do nothing. */
  lemma NullEditableIgnoresDeleteAndSpace(s: KeyboardState, code: int32, start: int)
    requires s.Valid() && s.focus.Some? && s.fields[s.focus.value].text.None?
    requires code == CODE_DELETE || code == CODE_SPACE
    ensures var r := KeyStep(s, code, start);
      r.fields == s.fields && r.isEnglish == s.isEnglish && r.layout == s.layout
  {
  }

  /** The cursor plays no part in a space. */
  lemma SpaceIgnoresCursor(s: KeyboardState, start1: int, start2: int)
    requires s.Valid()
    ensures KeyStep(s, CODE_SPACE, start1) == KeyStep(s, CODE_SPACE, start2)
  {
  }

  /** Any unreserved code inserts its unit at the cursor. */
  lemma InsertPutsUnitAtCursor(s: KeyboardState, text: seq<CodeUnit>, code: int32, start: int)
    requires s.Valid() && FocusedText(s, text) && 0 <= start <= |text|
    requires Classify(code).InsertUnit?
    ensures var r := KeyStep(s, code, start);
      && r.isEnglish == s.isEnglish && r.layout == s.layout
      && FocusedText(r, text[..start] + [ToChar(code)] + text[start..])
  {
  }

  /** -7 installs the Arabic layout once, from English; no buffer changes. */
  lemma ArabicSwitch(s: KeyboardState, start: int)
    requires s.Valid() && s.focus.Some?
    ensures var r := KeyStep(s, CODE_LANGUAGE_AR, start);
      && r.fields == s.fields
      && !r.isEnglish
      && (s.isEnglish ==> r.layout == Some(QWERTY_ARABIC))
      && (!s.isEnglish ==> r.layout == s.layout)
  {
  }

  /** -6 installs the qwerty layout once, from Arabic; no buffer changes. */
  lemma EnglishSwitch(s: KeyboardState, start: int)
    requires s.Valid() && s.focus.Some?
    ensures var r := KeyStep(s, CODE_LANGUAGE_EN, start);
      && r.fields == s.fields
      && r.isEnglish
      && (!s.isEnglish ==> r.layout == Some(QWERTY))
      && (s.isEnglish ==> r.layout == s.layout)
  {
  }

  /** A language key delivered twice has the effect of one. */
  lemma LanguageSwitchIdempotent(s: KeyboardState, code: int32, start1: int, start2: int)
    requires s.Valid() && (code == CODE_LANGUAGE_AR || code == CODE_LANGUAGE_EN)
    ensures KeyStep(KeyStep(s, code, start1), code, start2) == KeyStep(s, code, start1)
  {
  }

  /** Switching to Arabic and back to English ends on the qwerty layout in English. */
  lemma LanguageRoundTrip(s: KeyboardState, start1: int, start2: int)
    requires s.Valid() && s.focus.Some? && s.isEnglish
    ensures var r := KeyStep(KeyStep(s, CODE_LANGUAGE_AR, start1), CODE_LANGUAGE_EN, start2);
      r.isEnglish && r.layout == Some(QWERTY) && r.fields == s.fields
  {
  }

  /** Without a focused field no key changes a buffer, the language or the layout. */
  lemma UnfocusedKeyChangesNothing(s: KeyboardState, code: int32, start: int)
    requires s.Valid() && s.focus.None?
    ensures var r := KeyStep(s, code, start);
      r.fields == s.fields && r.isEnglish == s.isEnglish && r.layout == s.layout
  {
  }

  /** Typing a unit and then deleting it, the cursor having moved past the unit, restores the buffer. */
  lemma DeleteAfterTypingRestores(s: KeyboardState, text: seq<CodeUnit>, code: int32, start: int)
    requires s.Valid() && FocusedText(s, text) && 0 <= start <= |text|
    requires Classify(code).InsertUnit?
    ensures KeyStep(KeyStep(s, code, start), CODE_DELETE, start + 1).fields == s.fields
  {
    var id := s.focus.value;
    DeleteUndoesInsert(text, start, ToChar(code));
    assert KeyStep(KeyStep(s, code, start), CODE_DELETE, start + 1).fields
        == s.fields[id := s.fields[id].(text := Some(text))];
  }

  // ---------------------------------------------------------------------
  // Runs of typed characters

  /** The units the given codes type. */
  function Units(codes: seq<int32>): (u: seq<CodeUnit>)
    ensures |u| == |codes|
    ensures forall i :: 0 <= i < |codes| ==> u[i] == ToChar(codes[i])
  {
    if codes == [] then [] else [ToChar(codes[0])] + Units(codes[1..])
  }

  /** Every code of the run is typed as text. */
  predicate AllText(codes: seq<int32>) {
    forall i :: 0 <= i < |codes| ==> Classify(codes[i]).InsertUnit?
  }

  /**
   * Typing `codes` into the focused field one key after another, the
   * field's cursor moving past each unit typed (as the platform's buffer does).
   */
  function TypeCodes(s: KeyboardState, text: seq<CodeUnit>, start: int, codes: seq<int32>): (r: KeyboardState)
    requires s.Valid() && FocusedText(s, text) && 0 <= start <= |text| && AllText(codes)
    ensures r.Valid() && r.focus == s.focus
    decreases |codes|
  {
    if codes == [] then s
    else
      var next := text[..start] + [ToChar(codes[0])] + text[start..];
      InsertPutsUnitAtCursor(s, text, codes[0], start);
      TypeCodes(KeyStep(s, codes[0], start), next, start + 1, codes[1..])
  }

  /** A run of typed characters lands, in order, at the cursor where typing began. */
  lemma {:induction false} TypingInsertsInOrder(s: KeyboardState, text: seq<CodeUnit>, start: int, codes: seq<int32>)
    requires s.Valid() && FocusedText(s, text) && 0 <= start <= |text| && AllText(codes)
    ensures FocusedText(TypeCodes(s, text, start, codes), text[..start] + Units(codes) + text[start..])
    decreases |codes|
  {
    if codes != [] {
      var c := ToChar(codes[0]);
      var next := text[..start] + [c] + text[start..];
      InsertPutsUnitAtCursor(s, text, codes[0], start);
      var s1 := KeyStep(s, codes[0], start);
      assert TypeCodes(s, text, start, codes) == TypeCodes(s1, next, start + 1, codes[1..]);
      TypingInsertsInOrder(s1, next, start + 1, codes[1..]);
      SpliceAfterInsert(text, start, c, Units(codes[1..]));
      assert Units(codes) == [c] + Units(codes[1..]);
    } else {
      assert text[..start] + Units(codes) + text[start..] == text;
    }
  }

  /** Splicing `rest` after a unit just inserted at `start` splices `[c] + rest` at `start`. */
  lemma SpliceAfterInsert(text: seq<CodeUnit>, start: int, c: CodeUnit, rest: seq<CodeUnit>)
    requires 0 <= start <= |text|
    ensures var next := text[..start] + [c] + text[start..];
      next[..start + 1] + rest + next[start + 1..] == text[..start] + ([c] + rest) + text[start..]
  {
  }
}
