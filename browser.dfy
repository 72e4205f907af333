/**
 * What the core sees of the browser.  The driver itself is not modelled:
 * every interaction with it is a parameter of the operation that needs it.
 */
module Browser {
  import opened Wrappers

  /** The attributes get_element_info reads from a live element; a missing
      attribute (None in Python) is the empty string, which is just as falsy. */
  datatype ElementAttributes = ElementAttributes(
    tag: string,
    id: string,
    className: string,
    elementType: string,
    name: string,
    text: string,
    ariaLabel: string)

  /** A WebElement handle.  `attributes` is None for an element whose reads
      raise (a stale reference). */
  datatype WebElement = WebElement(handle: nat, attributes: Option<ElementAttributes>)

  /** The expected_conditions the finders wait for. */
  datatype Condition = Presence | Clickable | Visible

  /** Selenium's By strategies. */
  datatype By = ById | ByXPath | ByCssSelector | ByName | ByClassName | ByLinkText | ByPartialLinkText

  /** `wait.until(condition((by, value)))` against the current page: the element,
      or None when the wait raises (a timeout, an invalid selector, ...). */
  type Page = (Condition, By, string) -> Option<WebElement>
}
