/**
 * The two host screens of the sample app, as clients of the controller:
 * the single-field screen with its back-navigation rule and the list
 * screen whose rows all register with one shared keyboard.
 */
module Hosts {
  import opened Platform
  import opened KeyboardModel
  import opened Controller

  /**
   * Back navigation on the single-field screen: a visible keyboard is
   * hidden and the navigation swallowed, otherwise the screen finishes.
   */
  method OnBackPressed(kb: CustomKeyBoard) returns (finish: bool)
    modifies kb
    ensures finish <==> old(kb.visibility) != Visible
    ensures kb.State() == if finish then old(kb.State())
                          else old(kb.State()).(visibility := Gone, enabled := false)
  {
    var visible := kb.IsCustomKeyboardVisible();
    if visible {
      kb.HideCustomKeyboard();
      finish := false;
    } else {
      finish := true;
    }
  }

  /** A list row registers its field for text input on the qwerty layout. */
  method BindRow(kb: CustomKeyBoard, id: FieldId)
    requires kb.Valid() && id in kb.fields
    modifies kb
    ensures kb.Valid()
    ensures kb.fields == old(kb.fields)[id := old(kb.fields)[id].(inputType := INPUT_TYPE_TEXT)]
    ensures kb.fields[id].inputType & TYPE_TEXT_FLAG_NO_SUGGESTIONS == 0
    ensures kb.layout == Some(QWERTY) && kb.editText == Some(id) && id in kb.listening
    ensures kb.focus == old(kb.focus) && kb.isEnglish == old(kb.isEnglish)
    ensures kb.visibility == old(kb.visibility) && kb.enabled == old(kb.enabled)
    ensures kb.listening == old(kb.listening) + {id}
  {
    kb.RegisterRecyclerEditText(id, INPUT_TYPE_TEXT, QWERTY);
    InputKindsLackNoSuggestions();
  }

  /**
   * A numeric field on the single-field screen: typing '1', '2', delete,
   * '3' (the cursor following each edit) leaves "13".
   */
  method NumericEntry(et: FieldId) returns (text: Option<seq<CodeUnit>>, inputType: InputType)
    ensures text == Some([0x31, 0x33])
    ensures inputType == INPUT_TYPE_NUMBER
    ensures inputType & TYPE_TEXT_FLAG_NO_SUGGESTIONS == 0
  {
    var window := map[et := TextField(Some([]), TYPE_NULL)];
    var kb := new CustomKeyBoard(window, Some(et), Gone, false, et, NUMBERS, INPUT_TYPE_NUMBER);
    inputType := kb.fields[et].inputType;
    InputKindsLackNoSuggestions();
    var t: seq<CodeUnit> := [];
    InsertPutsUnitAtCursor(kb.State(), t, 0x31, 0);
    kb.OnKey(0x31, 0);
    assert FocusedText(kb.State(), [0x31]) by { assert t[..0] + [ToChar(0x31)] + t[0..] == [0x31]; }
    t := [0x31];
    InsertPutsUnitAtCursor(kb.State(), t, 0x32, 1);
    kb.OnKey(0x32, 1);
    assert FocusedText(kb.State(), [0x31, 0x32]) by { assert t[..1] + [ToChar(0x32)] + t[1..] == [0x31, 0x32]; }
    t := [0x31, 0x32];
    DeleteRemovesUnitBeforeCursor(kb.State(), t, 2);
    kb.OnKey(CODE_DELETE, 2);
    assert FocusedText(kb.State(), [0x31]) by { assert t[..1] + t[2..] == [0x31]; }
    t := [0x31];
    InsertPutsUnitAtCursor(kb.State(), t, 0x33, 1);
    kb.OnKey(0x33, 1);
    assert FocusedText(kb.State(), [0x31, 0x33]) by { assert t[..1] + [ToChar(0x33)] + t[1..] == [0x31, 0x33]; }
    text := kb.fields[et].text;
  }

  /**
   * Two list rows share one keyboard: focusing one shows the keyboard, and
   * each key lands in the field focused when it is pressed.
   */
  method TwoRowsShareKeyboard(a: FieldId, b: FieldId) returns (textA: Option<seq<CodeUnit>>, textB: Option<seq<CodeUnit>>, visible: bool)
    requires a != b
    ensures textA == Some([0x78]) && textB == Some([0x79])
    ensures visible
  {
    var window := map[a := TextField(Some([]), TYPE_NULL), b := TextField(Some([]), TYPE_NULL)];
    var kb := new CustomKeyBoard.Bare(window, None, Gone, false);
    BindRow(kb, a);
    BindRow(kb, b);
    var empty: seq<CodeUnit> := [];
    assert [][..0] + [ToChar(0x78)] + empty[0..] == [0x78];
    assert [][..0] + [ToChar(0x79)] + empty[0..] == [0x79];
    kb.MoveFocus(Some(a));
    InsertPutsUnitAtCursor(kb.State(), empty, 0x78, 0);
    kb.OnKey(0x78, 0);
    assert kb.fields[a].text == Some([0x78]) && kb.fields[b].text == Some([]);
    kb.MoveFocus(Some(b));
    InsertPutsUnitAtCursor(kb.State(), empty, 0x79, 0);
    kb.OnKey(0x79, 0);
    textA, textB := kb.fields[a].text, kb.fields[b].text;
    visible := kb.IsCustomKeyboardVisible();
  }

  /**
   * On a field holding "ab" with the cursor between the letters, a space
   * goes to the end: "ab ".
   */
  method SpaceWithCursorInside(et: FieldId) returns (text: Option<seq<CodeUnit>>)
    ensures text == Some([0x61, 0x62, 0x20])
  {
    var window := map[et := TextField(Some([0x61, 0x62]), TYPE_NULL)];
    var kb := new CustomKeyBoard(window, Some(et), Gone, false, et, QWERTY, INPUT_TYPE_TEXT);
    var ab: seq<CodeUnit> := [0x61, 0x62];
    assert FocusedText(kb.State(), ab);
    SpaceAppendsAtEnd(kb.State(), ab, 1);
    kb.OnKey(CODE_SPACE, 1);
    assert ab + [SPACE] == [0x61, 0x62, 0x20];
    text := kb.fields[et].text;
  }
}
