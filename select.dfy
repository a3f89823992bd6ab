/** The pad's mode selector, which holds one of the two display modes. */
module Select {
  import opened Host
  import opened ThemeConst

  /** The pad mode selector: its entity id, its options and the option it shows. */
  class PadModeSelect {
    const entityId: string
    const options: seq<string>
    var currentOption: string

    /** Starts on the colour mode, offering colour and black. */
    constructor ()
      ensures entityId == SELECT_THEME_PAD_MODE
      ensures options == [PAD_MODE_COLOR, PAD_MODE_BLACK] && currentOption == PAD_MODE_COLOR
    {
      entityId := SELECT_THEME_PAD_MODE;
      options := PAD_MODE_OPTIONS;
      currentOption := PAD_MODE_COLOR;
    }

    /** Shows the given option, as given: the setter does not check it against the options. */
    method SelectOption(option: string)
      modifies this
      ensures currentOption == option
    {
      currentOption := option;
    }
  }

  /** The selectors created for a config entry: one for a pad entry, none otherwise. */
  method SetupSelects(entry: ConfigEntry) returns (selects: seq<PadModeSelect>)
    ensures IsPad(entry) ==> |selects| == 1 && fresh(selects[0]) && selects[0].currentOption == PAD_MODE_COLOR
    ensures !IsPad(entry) ==> selects == []
  {
    if IsPad(entry) {
      var select := new PadModeSelect();
      selects := [select];
    } else {
      selects := [];
    }
  }
}
