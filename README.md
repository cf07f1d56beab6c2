# T-Board key-event controller, modelled in Dafny

T-Board is a custom on-screen keyboard for Android. Its core is
`CustomKeyBoard`: it binds one keyboard view to the text fields of a screen
and turns key codes into edits of the field that has focus. It also keeps a
language flag and the keyboard layout installed on the view, shows and hides
the view in response to field focus and clicks, and keeps the platform's own
keyboard away by clearing a field's input type while a touch is handled.

The model has five modules:

- `Platform` (`platform.dfy`) holds the values the controller handles:
  - Java `int` key codes;
  - UTF-16 code units, as integers 0..65535, so that the surrogate values a
    `(char)` cast can produce are representable;
  - input-type words as `bv32`, with the Android constants: TYPE_CLASS_TEXT = 1,
    TYPE_NUMBER_FLAG_DECIMAL = 0x2000, TYPE_TEXT_FLAG_NO_SUGGESTIONS = 0x80000
    and TYPE_NULL = 0;
  - opaque layout ids;
  - the view's visibility;
  - a text field as its buffer (absent when the field has no editable) plus
    its input type.
- `Editable` (`editable.dfy`) holds the two buffer operations the controller
  calls, range delete and insert. It proves that each one undoes the other.
- `KeyboardModel` (`keyboard_model.dfy`) is the controller as a state machine
  on values. `KeyStep` is one `onKey` event. The lemmas each state something
  about one key or about a run of keys.
- `Controller` (`custom_keyboard.dfy`) is the class `CustomKeyBoard`. It has
  the source's fields plus the host window's fields and focus, kept as plain
  data. Its methods update these step by step, in the source's order. `OnKey`
  is proved to do exactly what `KeyStep` says.
- `Hosts` (`hosts.dfy`) holds the sample app's uses of the controller:
  - the back-navigation rule;
  - the row registration of the list screen;
  - three typing scenarios.

Key events are handled as the code does:

- The only reserved codes are -5 (delete), 32 (space), -6 (English) and
  -7 (Arabic). Enter (10) and cancel (-3) do not hide the keyboard. They
  reach the insert branch and are typed as U+000A and U+FFFD. The same goes
  for every other code, negative ones included: each is truncated to its low
  16 bits.
- A missing editable is a no-op only for delete and space
  (`NullEditableIgnoresDeleteAndSpace`). The insert branch dereferences it,
  so the model requires a buffer there (see `KeyDefined`).
- Space is added at the end of the buffer, not at the cursor. On an empty
  buffer it does nothing.
- With no focused field a key changes no buffer, language or layout. It still
  clears the controller's field reference (`mEditText`). Installing a layout
  reads that reference, so `SetLanguage` needs a field to be registered or a
  key to have been pressed on a focused field first.
- The Arabic key works only from English and the English key only from
  Arabic. `SetLanguage` installs a layout without touching the language flag.
- The no-suggestions flag does not survive either the single-field
  constructor or `registerRecyclerEditText`. Both add it and then overwrite
  the whole input type with the caller's value. Only `registerEditText` on
  its own leaves it set.
- No constructor hides the keyboard view. Its initial visibility and enabled
  state are whatever the host layout declares; the model takes them as
  constructor parameters.
- The dialog constructor builds a keyboard from its layout argument but never
  installs it.
- Installing a listener replaces the earlier listener of the same kind on
  that field. Registered fields are therefore a set, and registering a field
  twice has the effect of registering it once.

## Model

| member | source | states |
|---|---|---|
| `Editable.Delete` | tboard/src/main/java/com/toters/tboard/CustomKeyBoard.java:140 | removing a range shortens the buffer by the range's length; units before the range are kept, and units after it move down by that length |
| `Editable.Insert` | tboard/src/main/java/com/toters/tboard/CustomKeyBoard.java:157 | inserting one unit lengthens the buffer by one and puts the unit at the offset; earlier units stay in place and later ones move up by one |
| `Editable.InsertAtEndAppends` | tboard/src/main/java/com/toters/tboard/CustomKeyBoard.java:143 | inserting at the buffer's length appends |
| `Editable.DeleteUndoesInsert` | tboard/src/main/java/com/toters/tboard/CustomKeyBoard.java:139-158 | deleting the unit just inserted gives back the original buffer |
| `Editable.InsertUndoesDelete` | tboard/src/main/java/com/toters/tboard/CustomKeyBoard.java:139-158 | re-inserting the unit just deleted gives back the original buffer |
| `KeyboardModel.ToChar` | tboard/src/main/java/com/toters/tboard/CustomKeyBoard.java:157 | the `(char)` cast yields the code unit congruent to the code modulo 2^16 |
| `KeyboardModel.Classify` | tboard/src/main/java/com/toters/tboard/CustomKeyBoard.java:139-158 | delete, space, Arabic and English each happen exactly for their code (-5, 32, -7, -6); every other code inserts its cast unit |
| `KeyboardModel.KeyboardFor` | tboard/src/main/java/com/toters/tboard/CustomKeyBoard.java:102-111 | the keyboard installed is the requested layout, whatever the field's input type |
| `KeyboardModel.WithNoSuggestions` | tboard/src/main/java/com/toters/tboard/CustomKeyBoard.java:258 | registration sets the no-suggestions flag and keeps every other bit of the input type |
| `KeyboardModel.InputKindsLackNoSuggestions` | tboard/src/main/java/com/toters/tboard/CustomKeyBoard.java:48-49 | neither offered input kind carries the no-suggestions flag, so overwriting the input type with either one clears it |
| `KeyboardModel.KeyStep` | tboard/src/main/java/com/toters/tboard/CustomKeyBoard.java:125-163 | focus is looked up when the key arrives: the controller's field becomes the focused one; the other fields, every input type, the focus, the listeners and the visibility are unchanged; with no focus, nothing but the field reference changes |
| `KeyboardModel.EnterAndCancelAreText` | tboard/src/main/java/com/toters/tboard/CustomKeyBoard.java:155-157 | enter (10) is typed as U+000A and cancel (-3) as U+FFFD |
| `KeyboardModel.OtherCodesInsert` | tboard/src/main/java/com/toters/tboard/CustomKeyBoard.java:155-157 | an unreserved code inserts; a code in 0..65535 inserts itself, and a code in -65536..-1 inserts code + 65536 |
| `KeyboardModel.DeleteRemovesUnitBeforeCursor` | tboard/src/main/java/com/toters/tboard/CustomKeyBoard.java:139-140 | delete with cursor > 0 removes exactly the unit before it; with cursor <= 0 no buffer changes; language and layout are unchanged |
| `KeyboardModel.SpaceAppendsAtEnd` | tboard/src/main/java/com/toters/tboard/CustomKeyBoard.java:141-144 | space appends one space to a non-empty buffer and changes nothing on an empty one |
| `KeyboardModel.NullEditableIgnoresDeleteAndSpace` | tboard/src/main/java/com/toters/tboard/CustomKeyBoard.java:139-144 | on a focused field without an editable, delete and space change no buffer, the language or the layout |
| `KeyboardModel.SpaceIgnoresCursor` | tboard/src/main/java/com/toters/tboard/CustomKeyBoard.java:141-144 | space has the same effect at every cursor position |
| `KeyboardModel.InsertPutsUnitAtCursor` | tboard/src/main/java/com/toters/tboard/CustomKeyBoard.java:155-157 | an unreserved code turns the buffer into `buf[..start] + [unit] + buf[start..]`; language and layout are unchanged |
| `KeyboardModel.ArabicSwitch` | tboard/src/main/java/com/toters/tboard/CustomKeyBoard.java:145-149 | -7 leaves the language Arabic and touches no buffer; it installs the Arabic layout only when the language was English, and otherwise keeps the layout |
| `KeyboardModel.EnglishSwitch` | tboard/src/main/java/com/toters/tboard/CustomKeyBoard.java:150-154 | -6 leaves the language English and touches no buffer; it installs qwerty only when the language was Arabic, and otherwise keeps the layout |
| `KeyboardModel.LanguageSwitchIdempotent` | tboard/src/main/java/com/toters/tboard/CustomKeyBoard.java:145-154 | a language key pressed twice has the effect of pressing it once |
| `KeyboardModel.LanguageRoundTrip` | tboard/src/main/java/com/toters/tboard/CustomKeyBoard.java:145-154 | starting in English, Arabic then English ends in English on qwerty with the buffers untouched |
| `KeyboardModel.UnfocusedKeyChangesNothing` | tboard/src/main/java/com/toters/tboard/CustomKeyBoard.java:126-133 | with no focused field no key changes a buffer, the language or the layout |
| `KeyboardModel.DeleteAfterTypingRestores` | tboard/src/main/java/com/toters/tboard/CustomKeyBoard.java:139-157 | typing a unit and then deleting it, with the cursor just after the unit, restores every buffer |
| `KeyboardModel.TypingInsertsInOrder` | tboard/src/main/java/com/toters/tboard/CustomKeyBoard.java:155-157 | typing a run of unreserved codes, with the cursor following each unit, splices the units in order at the initial cursor |
| `Controller.CustomKeyBoard.constructor` | tboard/src/main/java/com/toters/tboard/CustomKeyBoard.java:60-71 | the field is registered and its input type set to exactly the given one, so the no-suggestions flag is lost; the layout is installed, the language is English and the view's state is left as declared |
| `Controller.CustomKeyBoard.Bare` | tboard/src/main/java/com/toters/tboard/CustomKeyBoard.java:73-81 | no field is registered and no layout is installed |
| `Controller.CustomKeyBoard.InDialog` | tboard/src/main/java/com/toters/tboard/CustomKeyBoard.java:83-93 | the layout argument is not installed; no field is registered |
| `Controller.CustomKeyBoard.NotifyKeyBoardLayout` | tboard/src/main/java/com/toters/tboard/CustomKeyBoard.java:95-112 | the requested layout is installed and nothing else changes |
| `Controller.CustomKeyBoard.OnKey` | tboard/src/main/java/com/toters/tboard/CustomKeyBoard.java:124-163 | the new controller and window state is exactly `KeyStep` of the old one |
| `Controller.CustomKeyBoard.IsCustomKeyboardVisible` | tboard/src/main/java/com/toters/tboard/CustomKeyBoard.java:193-195 | true exactly when the view is visible |
| `Controller.CustomKeyBoard.ShowCustomKeyboard` | tboard/src/main/java/com/toters/tboard/CustomKeyBoard.java:200-209 | the view becomes visible and enabled; nothing else changes |
| `Controller.CustomKeyBoard.HideCustomKeyboard` | tboard/src/main/java/com/toters/tboard/CustomKeyBoard.java:214-217 | the view becomes gone and disabled; nothing else changes |
| `Controller.CustomKeyBoard.OnFocusChange` | tboard/src/main/java/com/toters/tboard/CustomKeyBoard.java:229-236 | gaining focus shows the keyboard; losing it hides the keyboard |
| `Controller.CustomKeyBoard.OnClick` | tboard/src/main/java/com/toters/tboard/CustomKeyBoard.java:237-243 | a click shows the keyboard |
| `Controller.CustomKeyBoard.OnTouch` | tboard/src/main/java/com/toters/tboard/CustomKeyBoard.java:246-256 | the touch is consumed; native handling sees TYPE_NULL, and afterwards every field, input types included, is as before |
| `Controller.CustomKeyBoard.MoveFocus` | tboard/src/main/java/com/toters/tboard/CustomKeyBoard.java:266-273 | focus moves to the target; a registered target shows the keyboard; otherwise a registered field losing focus hides it; otherwise the view is unchanged |
| `Controller.CustomKeyBoard.RegisterEditText` | tboard/src/main/java/com/toters/tboard/CustomKeyBoard.java:225-259 | the field becomes the controller's field and gets listeners; its input type becomes the old one with the no-suggestions flag added |
| `Controller.CustomKeyBoard.RegisterRecyclerEditText` | tboard/src/main/java/com/toters/tboard/CustomKeyBoard.java:262-297 | the layout is installed and the field gets listeners; its input type ends exactly as given, because the flag is overwritten |
| `Controller.CustomKeyBoard.SetLanguage` | tboard/src/main/java/com/toters/tboard/CustomKeyBoard.java:299-301 | the given layout is installed; the language flag is unchanged |
| `Hosts.OnBackPressed` | app/src/main/java/com/toters/mykeyboard/MainActivity.java:21-27 | a visible keyboard is hidden and the screen stays; otherwise the screen finishes, with the state unchanged |
| `Hosts.BindRow` | app/src/main/java/com/toters/mykeyboard/recycler/SimpleRecyclerAdapter.java:74 | a row field ends with input type exactly INPUT_TYPE_TEXT, no no-suggestions flag, qwerty installed and listeners in place |
| `Hosts.NumericEntry` | app/src/main/java/com/toters/mykeyboard/MainActivity.java:17 | on the numeric screen, typing '1', '2', delete, '3' leaves "13"; the input type is exactly the numeric kind, without the no-suggestions flag |
| `Hosts.TwoRowsShareKeyboard` | tboard/src/main/java/com/toters/tboard/CustomKeyBoard.java:126-133 | with two rows on one keyboard, 'x' typed while the first has focus and 'y' typed while the second has focus land in their own rows, and the keyboard is shown |
| `Hosts.SpaceWithCursorInside` | tboard/src/main/java/com/toters/tboard/CustomKeyBoard.java:141-144 | a space typed into "ab" with the cursor at 1 gives "ab ", not "a b" |

## Left out

- Obtaining the views (`findViewById`) is not modelled. A field is a key of
  the window's field map, and a registered field must be one of them.
- Suppressing the platform keyboard is not modelled: the
  `hideSoftInputFromWindow` call in `showCustomKeyboard` (so
  `ShowCustomKeyboard` takes no view) and `setSoftInputMode` in the
  constructors. Both are platform calls with no state the controller reads.
- `setPreviewEnabled` and `setOnKeyboardActionListener` are not modelled.
  They are view configuration.
- Parsing and building keyboards from layout resources is not modelled.
  Layouts are opaque ids.
- Whether focus is looked up in the activity's window or the dialog's
  window is not modelled. It only picks which window reports the focus, and
  the model has one focus lookup.
- Timber logging is not modelled. Neither are the empty `onPress`,
  `onRelease`, `onText` and swipe callbacks.
- Cursor movement is not modelled: the buffer moves the cursor after an
  edit. Each key event instead takes the cursor offset the field reports as
  an input.
- `KeyDefined` requires a buffer and a cursor within it for an insertion,
  and a cursor within the buffer for a delete. The code does not check these
  and the platform would throw, so these faults are not modelled as outcomes.
- A focused view that is not a text field is not modelled. The code's cast
  would fail, and the model's focus is always one of the window's fields.
- Controller.CustomKeyBoard.SetLanguage: requires the controller to hold a
  field. This holds after a registration or after a key pressed while a field
  had focus. Without one, the code (CustomKeyBoard.java:102) throws a
  NullPointerException, and that fault is not modelled. The same goes for
  `Controller.CustomKeyBoard.NotifyKeyBoardLayout`. A controller built with
  `Bare` or `InDialog` has no field until something registers, and a key
  pressed with no field focused clears it.
- Controller.CustomKeyBoard.OnTouch: the field's native touch handling
  (cursor placement, focus requests) is not modelled. The contract states
  only the save, clear and restore of the input type around it.
- Controller.CustomKeyBoard.MoveFocus: the platform's focus traversal is not
  modelled. The contract covers only the focus listeners it triggers when
  the focus moves.
- List screen plumbing in `RecyclerActivity.java` and the adapter's row
  creation and binding are not modelled beyond `Hosts.BindRow`.
- The activity lifecycle in `MainActivity.java` is not modelled beyond
  `Hosts.OnBackPressed` and `Hosts.NumericEntry`.
