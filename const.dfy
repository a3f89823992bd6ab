/** Literal values of the integration's constants: integration types, the fixed entity ids of the
    pad profile, the id prefixes of phone profiles, the two pad display modes and the timer periods. */
module ThemeConst {

  const INTEGRATION_TYPE_PAD: string := "pad"
  const INTEGRATION_TYPE_PHONE: string := "phone"

  const SWITCH_THEME_PAD_FULL: string := "switch.theme_pad_full"
  const SWITCH_THEME_PAD_MODE: string := "switch.theme_pad_mode"
  const SELECT_THEME_PAD_MODE: string := "select.theme_pad_mode"
  const SWITCH_THEME_PAD_HUE: string := "switch.theme_pad_hue"
  const NUMBER_THEME_PAD_HUE: string := "number.theme_pad_hue"

  /** The two options of the pad mode selector: colour ("day") and black ("night"). */
  const PAD_MODE_COLOR: string := "彩平图"
  const PAD_MODE_BLACK: string := "黑平图"
  const PAD_MODE_OPTIONS: seq<string> := [PAD_MODE_COLOR, PAD_MODE_BLACK]

  const SWITCH_THEME_PHONE_FULL_PREFIX: string := "switch.theme_phone_full_"
  const SWITCH_THEME_PHONE_MODE_PREFIX: string := "switch.theme_phone_mode_"
  const NUMBER_THEME_PHONE_MODE_PREFIX: string := "number.theme_phone_mode_"

  /** Periods of the two timers, in minutes. */
  const UPDATE_INTERVAL_MINUTES: nat := 5
  const HUE_UPDATE_INTERVAL_MINUTES: nat := 1

  /** Keys of the integration's shared dictionary that hold timer handles rather than entries. */
  const UPDATE_REMOVE: string := "update_remove"
  const HUE_UPDATE_REMOVE: string := "hue_update_remove"
  const UPDATE_CALLBACK: string := "update_callback"

  /** The state string a switch publishes when it is on. */
  const STATE_ON: string := "on"
}
