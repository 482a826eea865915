/**
 * `PushListenerService.getMessage`: picks the text of an incoming push message
 * from its bundle. A bundle maps keys to values; `None` is a value that is null
 * or not a string, which `Bundle.getString` reads as null.
 */
module PushListenerService {
  import opened Wrappers

  type Bundle = map<string, Option<string>>

  /** `data.getString(key, default)`: the default when the key is absent or its value reads as null. */
  function GetStringOr(data: Bundle, key: string, default: string): (r: string)
    ensures key in data && data[key].Some? ==> r == data[key].value
    ensures (key !in data || data[key].None?) ==> r == default
  {
    if key in data && data[key].Some? then data[key].value else default
  }

  /**
   * `getMessage(data)`: the `default` entry whenever the key is present (even when
   * it reads as null), otherwise the `message` entry, otherwise "".
   */
  function GetMessage(data: Bundle): (r: Option<string>)
    ensures "default" in data ==> r == data["default"]
    ensures "default" !in data && "message" in data && data["message"].Some? ==> r == data["message"]
    ensures "default" !in data && ("message" !in data || data["message"].None?) ==> r == Some("")
    ensures r.None? <==> "default" in data && data["default"].None?
  {
    if "default" in data then data["default"] else Some(GetStringOr(data, "message", ""))
  }

  /** The result depends only on the `default` and `message` entries. */
  lemma GetMessageDependsOnlyOnTwoKeys(a: Bundle, b: Bundle)
    requires ("default" in a <==> "default" in b) && ("default" in a ==> a["default"] == b["default"])
    requires ("message" in a <==> "message" in b) && ("message" in a ==> a["message"] == b["message"])
    ensures GetMessage(a) == GetMessage(b)
  {
  }

  /** Entries under other keys never change the result. */
  lemma GetMessageIgnoresOtherKeys(data: Bundle, key: string, value: Option<string>)
    requires key != "default" && key != "message"
    ensures GetMessage(data[key := value]) == GetMessage(data)
  {
  }
}
