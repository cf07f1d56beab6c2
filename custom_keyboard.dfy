/**
 * The keyboard controller as the object the host creates: it owns the
 * language flag and the keyboard view's layout and visibility, remembers
 * the field it last dealt with, and edits whichever field of the host
 * window has focus when a key arrives. The window's fields and focus are
 * kept here as plain data so that every event can be stated exactly.
 */
module Controller {
  import opened Platform
  import opened Editable
  import opened KeyboardModel

  class CustomKeyBoard {
    /** The text fields of the host window. */
    var fields: map<FieldId, TextField>
    /** The field that has focus in the host window, as the window reports it. */
    var focus: Option<FieldId>
    /** The field the controller last registered or looked up (`mEditText`). */
    var editText: Option<FieldId>
    var isEnglish: bool
    /** The layout installed on the keyboard view, if any. */
    var layout: Option<LayoutId>
    var visibility: Visibility
    var enabled: bool
    /** The fields on which this controller's focus, click and touch listeners are installed. */
    var listening: set<FieldId>

    ghost function State(): KeyboardState
      reads this
    {
      KeyboardState(fields, focus, editText, isEnglish, layout, visibility, enabled, listening)
    }

    ghost predicate Valid()
      reads this
    {
      State().Valid()
    }

    /**
     * Binds the keyboard view to one field: registers the field, sets its
     * input type and installs the layout. `shown` and `viewEnabled` are the
     * view's state as the host's layout declares it.
     */
    constructor (window: map<FieldId, TextField>, windowFocus: Option<FieldId>, shown: Visibility, viewEnabled: bool,
                 editTextId: FieldId, layoutId: LayoutId, etInputType: InputType)
      requires windowFocus.Some? ==> windowFocus.value in window
      requires editTextId in window
      ensures Valid()
      ensures fields == window[editTextId := window[editTextId].(inputType := etInputType)]
      ensures focus == windowFocus && editText == Some(editTextId) && isEnglish
      ensures layout == Some(layoutId) && listening == {editTextId}
      ensures visibility == shown && enabled == viewEnabled
    {
      fields, focus, editText, isEnglish := window, windowFocus, None, true;
      layout, visibility, enabled, listening := None, shown, viewEnabled, {};
      new;
      RegisterEditText(editTextId);
      fields := fields[editTextId := fields[editTextId].(inputType := etInputType)];
      NotifyKeyBoardLayout(layoutId);
    }

    /** Binds the keyboard view to no field; fields register themselves later. */
    constructor Bare(window: map<FieldId, TextField>, windowFocus: Option<FieldId>, shown: Visibility, viewEnabled: bool)
      requires windowFocus.Some? ==> windowFocus.value in window
      ensures Valid()
      ensures fields == window && focus == windowFocus && editText == None && isEnglish
      ensures layout == None && listening == {}
      ensures visibility == shown && enabled == viewEnabled
    {
      fields, focus, editText, isEnglish := window, windowFocus, None, true;
      layout, visibility, enabled, listening := None, shown, viewEnabled, {};
    }

    /**
     * Binds a keyboard view owned by a dialog. The layout it is given only
     * builds a keyboard that is never installed.
     */
    constructor InDialog(window: map<FieldId, TextField>, windowFocus: Option<FieldId>, shown: Visibility, viewEnabled: bool,
                         layoutId: LayoutId)
      requires windowFocus.Some? ==> windowFocus.value in window
      ensures Valid()
      ensures fields == window && focus == windowFocus && editText == None && isEnglish
      ensures layout == None && listening == {}
      ensures visibility == shown && enabled == viewEnabled
    {
      fields, focus, editText, isEnglish := window, windowFocus, None, true;
      layout, visibility, enabled, listening := None, shown, viewEnabled, {};
    }

    /** Installs the given layout, whatever the input type of the controller's field. */
    method NotifyKeyBoardLayout(layoutId: LayoutId)
      requires Valid() && editText.Some?
      modifies this`layout
      ensures Valid()
      ensures layout == Some(layoutId)
    {
      var kind := fields[editText.value].inputType;
      layout := Some(KeyboardFor(kind, layoutId));
    }

    /**
     * The key listener: `start` is the selection start the focused field
     * reports at the time of the event.
     */
    method OnKey(code: int32, start: int)
      requires Valid() && KeyDefined(State(), code, start)
      modifies this
      ensures Valid()
      ensures State() == KeyStep(old(State()), code, start)
    {
      editText := focus;
      if editText.Some? {
        var id := editText.value;
        var editable := fields[id].text;
        if code == CODE_DELETE {
          if editable.Some? && start > 0 {
            fields := fields[id := fields[id].(text := Some(Delete(editable.value, start - 1, start)))];
          }
        } else if code == CODE_SPACE {
          if editable.Some? && |editable.value| > 0 {
            fields := fields[id := fields[id].(text := Some(Insert(editable.value, |editable.value|, SPACE)))];
          }
        } else if code == CODE_LANGUAGE_AR {
          if isEnglish {
            NotifyKeyBoardLayout(QWERTY_ARABIC);
            isEnglish := false;
          }
        } else if code == CODE_LANGUAGE_EN {
          if !isEnglish {
            NotifyKeyBoardLayout(QWERTY);
            isEnglish := true;
          }
        } else {
          fields := fields[id := fields[id].(text := Some(Insert(editable.value, start, ToChar(code))))];
        }
      }
    }

    /** Whether the keyboard view is visible. */
    method IsCustomKeyboardVisible() returns (visible: bool)
      ensures visible <==> visibility == Visible
    {
      visible := visibility == Visible;
    }

    /** Makes the keyboard view visible and enabled. */
    method ShowCustomKeyboard()
      modifies this`visibility, this`enabled
      ensures visibility == Visible && enabled
    {
      visibility := Visible;
      enabled := true;
    }

    /** Makes the keyboard view gone and disabled. */
    method HideCustomKeyboard()
      modifies this`visibility, this`enabled
      ensures visibility == Gone && !enabled
    {
      visibility := Gone;
      enabled := false;
    }

    /** The focus listener installed on registered fields. */
    method OnFocusChange(hasFocus: bool)
      modifies this`visibility, this`enabled
      ensures hasFocus ==> visibility == Visible && enabled
      ensures !hasFocus ==> visibility == Gone && !enabled
    {
      if hasFocus {
        ShowCustomKeyboard();
      } else {
        HideCustomKeyboard();
      }
    }

    /** The click listener installed on registered fields. */
    method OnClick()
      modifies this`visibility, this`enabled
      ensures visibility == Visible && enabled
    {
      ShowCustomKeyboard();
    }

    /**
     * The touch listener installed on registered fields: the field's native
     * touch handling runs with input type TYPE_NULL, so that the platform's
     * own keyboard does not open, and the input type is restored afterwards.
     * `duringTouch` is the input type the native handler sees.
     */
    method OnTouch(id: FieldId) returns (consumed: bool, duringTouch: InputType)
      requires Valid() && id in listening
      modifies this`fields
      ensures Valid()
      ensures consumed && duringTouch == TYPE_NULL
      ensures fields == old(fields)
    {
      var inType := fields[id].inputType;
      fields := fields[id := fields[id].(inputType := TYPE_NULL)];
      duringTouch := fields[id].inputType;
      fields := fields[id := fields[id].(inputType := inType)];
      consumed := true;
    }

    /**
     * The host window moves its focus to `to`; the field losing focus and
     * the field gaining it each report the change to their focus listener,
     * if this controller installed one.
     */
    method MoveFocus(to: Option<FieldId>)
      requires Valid() && (to.Some? ==> to.value in fields)
      modifies this`focus, this`visibility, this`enabled
      ensures Valid() && focus == to
      ensures old(focus) != to && to.Some? && to.value in listening ==> visibility == Visible && enabled
      ensures old(focus) != to && !(to.Some? && to.value in listening) && old(focus).Some? && old(focus).value in listening
        ==> visibility == Gone && !enabled
      ensures old(focus) == to || (!(to.Some? && to.value in listening) && !(old(focus).Some? && old(focus).value in listening))
        ==> visibility == old(visibility) && enabled == old(enabled)
    {
      var from := focus;
      focus := to;
      if from != to {
        if from.Some? && from.value in listening {
          OnFocusChange(false);
        }
        if to.Some? && to.value in listening {
          OnFocusChange(true);
        }
      }
    }

    /**
     * Registers a field of the window: installs the listeners and adds the
     * no-suggestions flag to its input type.
     */
    method RegisterEditText(id: FieldId)
      requires Valid() && id in fields
      modifies this`editText, this`listening, this`fields
      ensures Valid()
      ensures editText == Some(id) && listening == old(listening) + {id}
      ensures fields == old(fields)[id := old(fields)[id].(inputType := WithNoSuggestions(old(fields)[id].inputType))]
    {
      editText := Some(id);
      listening := listening + {id};
      fields := fields[id := fields[id].(inputType := WithNoSuggestions(fields[id].inputType))];
    }

    /**
     * Registers a field of a list row: installs the layout and the
     * listeners, adds the no-suggestions flag and then overwrites the input
     * type with `etInputType`, so the flag does not survive.
     */
    method RegisterRecyclerEditText(id: FieldId, etInputType: InputType, layoutId: LayoutId)
      requires Valid() && id in fields
      modifies this`editText, this`layout, this`listening, this`fields
      ensures Valid()
      ensures editText == Some(id) && layout == Some(layoutId) && listening == old(listening) + {id}
      ensures fields == old(fields)[id := old(fields)[id].(inputType := etInputType)]
    {
      editText := Some(id);
      NotifyKeyBoardLayout(layoutId);
      listening := listening + {id};
      fields := fields[id := fields[id].(inputType := WithNoSuggestions(fields[id].inputType))];
      fields := fields[id := fields[id].(inputType := etInputType)];
    }

    /** Installs the given layout; the language flag is left as it is. */
    method SetLanguage(layoutId: LayoutId)
      requires Valid() && editText.Some?
      modifies this`layout
      ensures Valid()
      ensures layout == Some(layoutId)
    {
      NotifyKeyBoardLayout(layoutId);
    }
  }
}
