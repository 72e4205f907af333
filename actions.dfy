/**
 * The recorded actions of src/web_automation_tool.py (record_action, lines
 * 748-768) and the dict lookups the script generator makes on them.  A
 * dict is its items in insertion order; the keys of a dict are distinct, and
 * a lookup takes the first item with the key.
 */
module Actions {
  import opened Wrappers
  import opened Text

  /** A locator value as the language model returns it: one string or a list of them. */
  datatype LocatorValue = Single(text: string) | Many(items: seq<string>)

  /** The "locators" object of generate_element_locators' reply. */
  type LocatorMap = seq<(string, LocatorValue)>

  /** One entry of the actions log: {type, element_info, locators, timestamp}. */
  datatype RecordedAction = RecordedAction(
    actionType: string,
    elementInfo: seq<(string, string)>,
    locators: LocatorMap,
    timestamp: string)

  /** `d.get(key, "")` on a dict of strings. */
  function GetText(d: seq<(string, string)>, key: string): (v: string)
    ensures v != "" ==> exists i :: 0 <= i < |d| && d[i] == (key, v)
    ensures (forall i :: 0 <= i < |d| ==> d[i].0 != key) ==> v == ""
    decreases |d|
  {
    if d == [] then ""
    else if d[0].0 == key then d[0].1
    else GetText(d[1..], key)
  }

  /** Python's str() of a list of strings, as an f-string embeds it; quotes inside items are not escaped here. */
  function ListRepr(items: seq<string>): string {
    "[" + Join(Quoted(items), ", ") + "]"
  }

  function Quoted(items: seq<string>): (r: seq<string>)
    ensures |r| == |items|
    decreases |items|
  {
    if items == [] then [] else ["'" + items[0] + "'"] + Quoted(items[1..])
  }

  /** `locators.get(key, "")` as an f-string renders it. */
  function GetLocator(locators: LocatorMap, key: string): (v: string)
    ensures (forall i :: 0 <= i < |locators| ==> locators[i].0 != key) ==> v == ""
    decreases |locators|
  {
    if locators == [] then ""
    else if locators[0].0 == key then
      match locators[0].1
      case Single(text) => text
      case Many(items) => ListRepr(items)
    else GetLocator(locators[1..], key)
  }

  /** The first item with the key decides, whatever follows it. */
  lemma {:induction false} GetLocatorFirst(before: LocatorMap, key: string, value: string, after: LocatorMap)
    requires forall i :: 0 <= i < |before| ==> before[i].0 != key
    ensures GetLocator(before + [(key, Single(value))] + after, key) == value
    decreases |before|
  {
    if before != [] {
      assert (before + [(key, Single(value))] + after)[1..] == before[1..] + [(key, Single(value))] + after;
      GetLocatorFirst(before[1..], key, value, after);
    }
  }
}
