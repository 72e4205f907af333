/**
 * element_finder.py (the older finder at the repository root): a single
 * presence cascade over id, xpath and css with no blank-value check, so an
 * empty value is still handed to the wait.
 */
module LegacyElementFinder {
  import opened Wrappers
  import opened Browser
  import ElementFinder

  /** find_element_by_locators (lines 23-41). */
  method FindElementByLocators(locators: ElementFinder.Locators, page: Page) returns (element: Option<WebElement>)
    ensures element == ElementFinder.FirstResolved(locators, Presence, ElementFinder.WaitStrategy, false, page)
  {
    for i := 0 to |locators|
      invariant ElementFinder.FirstResolved(locators, Presence, ElementFinder.WaitStrategy, false, page)
                == ElementFinder.FirstResolved(locators[i..], Presence, ElementFinder.WaitStrategy, false, page)
    {
      assert locators[i..][1..] == locators[i + 1..];
      var (locatorType, locatorValue) := locators[i];
      var how := ElementFinder.WaitStrategy(locatorType);
      if how.Some? {
        var found := page(Presence, how.value, locatorValue);
        if found.Some? {
          return found;
        }
      }
    }
    return None;
  }

  /** Unlike src/element_finder.py, a blank value is looked up: an entry
      ("id", "") that the page resolves is found here and skipped there. */
  lemma BlankValueIsLookedUp(page: Page)
    requires page(Presence, ById, "").Some?
    ensures ElementFinder.FirstResolved([("id", "")], Presence, ElementFinder.WaitStrategy, false, page)
            == page(Presence, ById, "")
    ensures ElementFinder.FirstResolved([("id", "")], Presence, ElementFinder.PresenceStrategy, true, page) == None
  {
    assert [("id", "")][1..] == [];
  }
}
