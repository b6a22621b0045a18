/**
 * Client-side keyboard capture (src/App.js:15-22, 124-140): browser key
 * names are translated to the host injector's vocabulary, and on loss of
 * focus every modifier is released.
 */
module Keyboard {
  import opened Wrappers
  import opened Control
  import JsString

  /** `ROBOT_KEY_MAP`: browser `KeyboardEvent.key` names to injector key names. */
  const RobotKeyMap: map<string, string> := map[
    "ArrowUp" := "up", "ArrowDown" := "down", "ArrowLeft" := "left", "ArrowRight" := "right",
    "Enter" := "enter", "Backspace" := "backspace", "Tab" := "tab", "Escape" := "escape",
    " " := "space", "Shift" := "shift", "Control" := "control", "Alt" := "alt",
    "Meta" := "command", "AltGraph" := "alt",
    "Delete" := "delete", "Home" := "home", "End" := "end", "PageUp" := "pageup",
    "PageDown" := "pagedown", "CapsLock" := "capslock",
    "F1" := "f1", "F2" := "f2", "F3" := "f3", "F4" := "f4", "F5" := "f5", "F6" := "f6",
    "F7" := "f7", "F8" := "f8", "F9" := "f9", "F10" := "f10", "F11" := "f11", "F12" := "f12"]

  /** The modifiers released on blur, in the order they are released (src/App.js:139). */
  const ModifierNames: seq<string> := ["alt", "control", "shift", "command"]

  /** `toLowerCase` on one character, for the ASCII letters. */
  function ToLower(c: char): (r: char)
    ensures !('A' <= r <= 'Z')
    ensures !('A' <= c <= 'Z') ==> r == c
  {
    if 'A' <= c <= 'Z' then (c as int - 'A' as int + 'a' as int) as char else c
  }

  predicate NoUpper(s: string) {
    forall i :: 0 <= i < |s| ==> !('A' <= s[i] <= 'Z')
  }

  /**
   * `ROBOT_KEY_MAP[key] || (key.length === 1 ? key.toLowerCase() : null)`:
   * table entries win, other single characters pass through lower-cased,
   * anything else has no translation. "Single" is JavaScript's `length`:
   * one UTF-16 code unit, so a character outside the Basic Multilingual
   * Plane has none. Whatever it gives is a non-empty lower-case name.
   */
  function RobotKey(key: string): (r: Option<string>)
    ensures r.Some? ==> r.value != "" && NoUpper(r.value)
  {
    JsString.LengthOne(key);
    if key in RobotKeyMap then TableIsLowerCase(key); Some(RobotKeyMap[key])
    else if JsString.Length(key) == 1 then Some([ToLower(key[0])])
    else None
  }

  /** Every table entry is a non-empty, lower-case name. */
  lemma TableIsLowerCase(k: string)
    requires k in RobotKeyMap
    ensures RobotKeyMap[k] != "" && NoUpper(RobotKeyMap[k])
  {
  }

  /**
   * What `RobotKey` gives: the table's entry for a mapped key, the
   * lower-cased character for any other single BMP character, and nothing
   * for any other unmapped name (a character outside the BMP included).
   */
  lemma RobotKeyCases(key: string)
    ensures key in RobotKeyMap ==> RobotKey(key) == Some(RobotKeyMap[key])
    ensures key !in RobotKeyMap && |key| == 1 && key[0] as int < 0x1_0000
      ==> RobotKey(key) == Some([ToLower(key[0])])
    ensures key !in RobotKeyMap && (|key| != 1 || key[0] as int >= 0x1_0000) ==> RobotKey(key).None?
  {
    JsString.LengthOne(key);
  }

  /** An emoji key is two UTF-16 code units long, so it has no translation. */
  lemma AstralKeyDropped()
    ensures RobotKey("\U{1F600}").None?
  {
    assert "\U{1F600}" !in RobotKeyMap;
  }

  /** `handleKeyEvent` through `sendKey`: at most one key message, only over an open channel. */
  function KeyMessages(dir: Direction, key: string, channelOpen: bool): (ms: seq<ControlMessage>)
    ensures |ms| <= 1
    ensures ms != [] <==> channelOpen && RobotKey(key).Some?
    ensures ms != [] ==> ms[0] == Key(dir, RobotKey(key).value)
  {
    match RobotKey(key)
    case Some(name) => if channelOpen then [Key(dir, name)] else []
    case None => []
  }

  /** `sendKey('keyup', …)` for each of `names`, in order. */
  function ReleaseAll(names: seq<string>, channelOpen: bool): (ms: seq<ControlMessage>)
    ensures |ms| == if channelOpen then |names| else 0
    ensures channelOpen ==> forall i :: 0 <= i < |names| ==> ms[i] == Key(Up, names[i])
  {
    if names == [] || !channelOpen then []
    else [Key(Up, names[0])] + ReleaseAll(names[1..], channelOpen)
  }

  /** `handleBlur`: key-up for alt, control, shift and command, in that order. */
  function BlurMessages(channelOpen: bool): (ms: seq<ControlMessage>)
    ensures channelOpen ==> ms == [Key(Up, "alt"), Key(Up, "control"), Key(Up, "shift"), Key(Up, "command")]
    ensures !channelOpen ==> ms == []
  {
    ReleaseAll(ModifierNames, channelOpen)
  }

  /**
   * Every modifier the client can press is released on blur: for each
   * browser modifier key, the key-down the client sends has a matching
   * key-up among the blur messages.
   */
  lemma BlurReleasesEveryModifier(key: string)
    requires key in {"Shift", "Control", "Alt", "AltGraph", "Meta"}
    ensures |KeyMessages(Down, key, true)| == 1
    ensures Key(Up, KeyMessages(Down, key, true)[0].key) in BlurMessages(true)
  {
    var name := RobotKeyMap[key];
    assert name in ModifierNames;
    var i :| 0 <= i < 4 && ModifierNames[i] == name;
    assert BlurMessages(true)[i] == Key(Up, name);
  }
}
