/**
 * The private `SharedPreferences` file of the push manager, as a map from key to
 * value. `apply()` is taken to update the map at once; the asynchronous disk write
 * is not part of this model.
 */
module Preferences {

  /** A stored preference value: this file holds only strings and booleans. */
  datatype Value = Str(s: string) | Bool(b: bool)

  type Prefs = map<string, Value>

  /** The three keys the push manager uses. */
  const PUSH_ENABLED: string := "pushEnabled"
  const KEY_ENDPOINT_ARN: string := "endpointArn"
  const PREVIOUS_PLATFORM_APPLICATION: string := "previousPlatformApp"

  /**
   * Every key the push manager reads holds the type it is read as. The file is
   * private to the push manager, and every write it makes keeps this true.
   */
  predicate WellTyped(p: Prefs) {
    (PUSH_ENABLED in p ==> p[PUSH_ENABLED].Bool?) &&
    (KEY_ENDPOINT_ARN in p ==> p[KEY_ENDPOINT_ARN].Str?) &&
    (PREVIOUS_PLATFORM_APPLICATION in p ==> p[PREVIOUS_PLATFORM_APPLICATION].Str?)
  }

  /** `getString(key, default)` on a well-typed file. */
  function GetString(p: Prefs, key: string, default: string): (r: string)
    requires key == KEY_ENDPOINT_ARN || key == PREVIOUS_PLATFORM_APPLICATION
    requires WellTyped(p)
    ensures key !in p ==> r == default
    ensures key in p ==> p[key] == Str(r)
  {
    if key in p then p[key].s else default
  }

  /** `getBoolean(key, default)` on a well-typed file. */
  function GetBoolean(p: Prefs, key: string, default: bool): (r: bool)
    requires key == PUSH_ENABLED
    requires WellTyped(p)
    ensures key !in p ==> r == default
    ensures key in p ==> p[key] == Bool(r)
  {
    if key in p then p[key].b else default
  }
}
