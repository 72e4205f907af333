/**
 * src/element_finder.py: the locator cascade.  A locator map is a Python dict
 * from locator type to value; it is modelled as its items in insertion order.
 * Each finder walks the items in that order, skips falsy values without
 * waiting, ignores types it does not recognise, treats a failed wait as a
 * miss and returns the first element a wait produces.
 */
module ElementFinder {
  import opened Wrappers
  import opened Browser

  type Locators = seq<(string, string)>

  /** The seven locator types of find_element_by_locators and their strategies. */
  function PresenceStrategy(locatorType: string): Option<By> {
    if locatorType == "id" then Some(ById)
    else if locatorType == "xpath" then Some(ByXPath)
    else if locatorType == "css" then Some(ByCssSelector)
    else if locatorType == "name" then Some(ByName)
    else if locatorType == "class" then Some(ByClassName)
    else if locatorType == "link_text" then Some(ByLinkText)
    else if locatorType == "partial_link_text" then Some(ByPartialLinkText)
    else None
  }

  /** The three locator types of find_clickable_element and find_visible_element. */
  function WaitStrategy(locatorType: string): Option<By> {
    if locatorType == "id" then Some(ById)
    else if locatorType == "xpath" then Some(ByXPath)
    else if locatorType == "css" then Some(ByCssSelector)
    else None
  }

  /** Whether an entry gets a wait at all: a truthy value (when blanks are
      skipped) and a recognised type. */
  predicate Tried(entry: (string, string), strategy: string -> Option<By>, skipBlank: bool) {
    (!skipBlank || entry.1 != "") && strategy(entry.0).Some?
  }

  /** Whether an entry is tried and its wait produces an element. */
  predicate Resolves(entry: (string, string), condition: Condition, strategy: string -> Option<By>,
                     skipBlank: bool, page: Page)
  {
    Tried(entry, strategy, skipBlank) && page(condition, strategy(entry.0).value, entry.1).Some?
  }

  /** The reference cascade: the element of the first entry that resolves. */
  function FirstResolved(locators: Locators, condition: Condition, strategy: string -> Option<By>,
                         skipBlank: bool, page: Page): Option<WebElement>
    decreases |locators|
  {
    if locators == [] then None
    else
      var entry := locators[0];
      if Resolves(entry, condition, strategy, skipBlank, page)
      then page(condition, strategy(entry.0).value, entry.1)
      else FirstResolved(locators[1..], condition, strategy, skipBlank, page)
  }

  /** The cascade finds an element exactly when some entry resolves, and then
      it is the element of the first such entry. */
  lemma {:induction false} FirstResolvedIsFirstMatch(locators: Locators, condition: Condition,
                                                     strategy: string -> Option<By>, skipBlank: bool, page: Page)
    ensures FirstResolved(locators, condition, strategy, skipBlank, page).Some?
        <==> exists i :: 0 <= i < |locators| && Resolves(locators[i], condition, strategy, skipBlank, page)
    ensures forall i :: 0 <= i < |locators| && Resolves(locators[i], condition, strategy, skipBlank, page)
                     && (forall j :: 0 <= j < i ==> !Resolves(locators[j], condition, strategy, skipBlank, page))
                     ==> FirstResolved(locators, condition, strategy, skipBlank, page)
                         == page(condition, strategy(locators[i].0).value, locators[i].1)
    decreases |locators|
  {
    if locators != [] {
      var rest := locators[1..];
      FirstResolvedIsFirstMatch(rest, condition, strategy, skipBlank, page);
      forall i | 1 <= i < |locators| ensures locators[i] == rest[i - 1] { }
      if !Resolves(locators[0], condition, strategy, skipBlank, page) {
        forall i | 0 <= i < |locators| && Resolves(locators[i], condition, strategy, skipBlank, page)
          ensures 1 <= i && Resolves(rest[i - 1], condition, strategy, skipBlank, page)
        { }
        forall i | 0 <= i < |rest| && Resolves(rest[i], condition, strategy, skipBlank, page)
          ensures Resolves(locators[i + 1], condition, strategy, skipBlank, page)
        { }
      }
    }
  }

  /** Entries that are not tried make no lookup: two pages that agree on every
      tried entry give the same result, whatever they say about the others. */
  lemma {:induction false} UntriedEntriesMakeNoLookup(locators: Locators, condition: Condition,
                                                       strategy: string -> Option<By>, skipBlank: bool,
                                                       page1: Page, page2: Page)
    requires forall i :: 0 <= i < |locators| && Tried(locators[i], strategy, skipBlank) ==>
               page1(condition, strategy(locators[i].0).value, locators[i].1)
               == page2(condition, strategy(locators[i].0).value, locators[i].1)
    ensures FirstResolved(locators, condition, strategy, skipBlank, page1)
         == FirstResolved(locators, condition, strategy, skipBlank, page2)
    decreases |locators|
  {
    if locators != [] {
      assert Tried(locators[0], strategy, skipBlank) ==>
        page1(condition, strategy(locators[0].0).value, locators[0].1)
        == page2(condition, strategy(locators[0].0).value, locators[0].1);
      forall i | 0 <= i < |locators| - 1 ensures locators[1..][i] == locators[i + 1] { }
      UntriedEntriesMakeNoLookup(locators[1..], condition, strategy, skipBlank, page1, page2);
    }
  }

  /** An empty or all-blank map finds nothing and waits for nothing. */
  lemma {:induction false} AllBlankFindsNothing(locators: Locators, condition: Condition,
                                                strategy: string -> Option<By>, page: Page)
    requires forall i :: 0 <= i < |locators| ==> locators[i].1 == ""
    ensures FirstResolved(locators, condition, strategy, true, page) == None
    decreases |locators|
  {
    if locators != [] {
      assert locators[0].1 == "";
      forall i | 0 <= i < |locators| - 1 ensures locators[1..][i].1 == "" {
        assert locators[1..][i] == locators[i + 1];
      }
      AllBlankFindsNothing(locators[1..], condition, strategy, page);
    }
  }

  /** The loop shared by the three finders (lines 30-67, 80-101, 114-135). */
  method Cascade(locators: Locators, condition: Condition, strategy: string -> Option<By>, page: Page)
    returns (element: Option<WebElement>)
    ensures element == FirstResolved(locators, condition, strategy, true, page)
  {
    for i := 0 to |locators|
      invariant FirstResolved(locators, condition, strategy, true, page)
                == FirstResolved(locators[i..], condition, strategy, true, page)
    {
      assert locators[i..][1..] == locators[i + 1..];
      var (locatorType, locatorValue) := locators[i];
      if locatorValue == "" {
        continue;
      }
      var how := strategy(locatorType);
      if how.Some? {
        var found := page(condition, how.value, locatorValue);
        if found.Some? {
          return found;
        }
      }
    }
    return None;
  }

  /** find_element_by_locators: presence of the first resolving entry, seven types. */
  method FindElementByLocators(locators: Locators, page: Page) returns (element: Option<WebElement>)
    ensures element == FirstResolved(locators, Presence, PresenceStrategy, true, page)
  {
    element := Cascade(locators, Presence, PresenceStrategy, page);
  }

  /** find_clickable_element: id, xpath and css only. */
  method FindClickableElement(locators: Locators, page: Page) returns (element: Option<WebElement>)
    ensures element == FirstResolved(locators, Clickable, WaitStrategy, true, page)
  {
    element := Cascade(locators, Clickable, WaitStrategy, page);
  }

  /** find_visible_element: id, xpath and css only. */
  method FindVisibleElement(locators: Locators, page: Page) returns (element: Option<WebElement>)
    ensures element == FirstResolved(locators, Visible, WaitStrategy, true, page)
  {
    element := Cascade(locators, Visible, WaitStrategy, page);
  }

  method WaitForElementPresence(locators: Locators, page: Page) returns (present: bool)
    ensures present <==> exists i :: 0 <= i < |locators| && Resolves(locators[i], Presence, PresenceStrategy, true, page)
  {
    var element := FindElementByLocators(locators, page);
    FirstResolvedIsFirstMatch(locators, Presence, PresenceStrategy, true, page);
    present := element.Some?;
  }

  method WaitForElementClickable(locators: Locators, page: Page) returns (clickable: bool)
    ensures clickable <==> exists i :: 0 <= i < |locators| && Resolves(locators[i], Clickable, WaitStrategy, true, page)
  {
    var element := FindClickableElement(locators, page);
    FirstResolvedIsFirstMatch(locators, Clickable, WaitStrategy, true, page);
    clickable := element.Some?;
  }

  method WaitForElementVisible(locators: Locators, page: Page) returns (visible: bool)
    ensures visible <==> exists i :: 0 <= i < |locators| && Resolves(locators[i], Visible, WaitStrategy, true, page)
  {
    var element := FindVisibleElement(locators, page);
    FirstResolvedIsFirstMatch(locators, Visible, WaitStrategy, true, page);
    visible := element.Some?;
  }
}
